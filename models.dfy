/**
 * The records shared by the parsers and the bot: a resume with its
 * experience entries, the search options a user collects, and the dialogue
 * states of a chat.
 */
module Models {
  import opened Wrappers

  /** One prior role; a source document need not give any of the three fields. */
  datatype Experience = Experience(position: Option<string>, duration: Option<string>, details: Option<string>)

  /**
   * A normalised resume. The link and the filling percentage are always
   * present; the salary and the experience list may be missing.
   */
  datatype Resume = Resume(
    href: string,
    salaryExpectation: Option<string>,
    experience: Option<seq<Experience>>,
    fillingPercentage: int)

  /** `Resume.__lt__`: one resume ranks below another by filling percentage alone. */
  predicate Less(a: Resume, b: Resume) {
    a.fillingPercentage < b.fillingPercentage
  }

  /** Only the filling percentage takes part in the comparison. */
  lemma LessOnlyByScore(a: Resume, b: Resume, a': Resume, b': Resume)
    requires a.fillingPercentage == a'.fillingPercentage && b.fillingPercentage == b'.fillingPercentage
    ensures Less(a, b) <==> Less(a', b')
  {
  }

  /** No resume ranks below itself. */
  lemma LessIrreflexive(a: Resume)
    ensures !Less(a, a)
  {
  }

  lemma LessTransitive(a: Resume, b: Resume, c: Resume)
    requires Less(a, b) && Less(b, c)
    ensures Less(a, c)
  {
  }

  /** Resumes with equal filling percentage are ties: neither ranks below the other. */
  lemma LessTie(a: Resume, b: Resume)
    ensures a.fillingPercentage == b.fillingPercentage <==> !Less(a, b) && !Less(b, a)
  {
  }

  /** The validated search parameters handed to both parsers. */
  datatype SearchOptions = SearchOptions(
    search: string,
    region: Option<string>,
    salaryFrom: Option<int>,
    salaryTo: Option<int>,
    experience: Option<seq<string>>)

  /** Which parameter, if any, the bot is waiting for in a chat. */
  datatype UserState =
    | AskingKeywords
    | AskingRegion
    | AskingSalary
    | AskingExperience
    | AskingSalaryFrom
    | AskingSalaryTo
    | Free
}
