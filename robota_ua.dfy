/**
 * The Robota.ua adapter: the JSON search payload built from the user's
 * options, the two POST requests of a search (one to learn the total, one to
 * fetch that many documents), and the mapping of every returned document to
 * a resume. The HTTP requests are a parameter; the login, the headers and the
 * loading of the lookup tables happen before and are not modelled.
 */
module RobotaUa {
  import opened Wrappers
  import opened Text
  import opened Dicts
  import opened Models
  import opened Nlp

  const BaseUrl: string := "https://robota.ua"
  const CandidatesPath: string := "/candidates/"

  /** The option that stands for the two longer ranges as well. */
  const MoreThanFive: string := "More than 5 years"
  const FiveToTen: string := "5 to 10 years"
  const MoreThanTen: string := "More than 10 years"

  /** The tables the parser loads once: region IDs by name and experience IDs by label. */
  datatype Config = Config(regions: Dict<int>, experienceOptions: Dict<int>, matcher: Matcher)

  /** What a search can raise. */
  datatype RobotaError =
    | KeyError(key: string)
    | TypeError
    | HttpError(status: int)

  /** One entry of a document's `experience` list. */
  datatype DocumentExperience = DocumentExperience(position: Option<string>, datesDiff: Option<string>, company: Option<string>)

  /** One element of the response's `documents` list, with the fields the parser reads. */
  datatype Document = Document(resumeId: int, salary: string, experience: seq<DocumentExperience>, fillingPercentage: int)

  /** The JSON body of a search request; `count` is only present in the second request. */
  datatype Payload = Payload(
    cityId: Option<int>,
    keyWords: string,
    salaryFrom: Option<int>,
    salaryTo: Option<int>,
    experienceIds: seq<int>,
    count: Option<int>)

  /** A response: its status code and the two JSON fields read from it, each None when absent. */
  datatype Response = Response(status: int, total: Option<int>, documents: Option<seq<Document>>)

  /** The search endpoint, as a function of the posted payload. */
  datatype RobotaIo = RobotaIo(post: Payload -> Response)

  // ----- one document -----

  /**
   * `format_salary_expectation`: the stripped salary with every no-break
   * space turned into a plain space, so that neither end is whitespace and
   * no no-break space is left.
   */
  function FormatSalaryExpectation(salary: string): (r: string)
    ensures NBSP !in r && Trimmed(r)
    ensures |r| == |Strip(salary)|
    ensures forall k :: 0 <= k < |r| ==> r[k] == if Strip(salary)[k] == NBSP then ' ' else Strip(salary)[k]
  {
    Clean(salary)
  }

  /** Formatting an already formatted salary changes nothing. */
  lemma FormatSalaryIdempotent(salary: string)
    ensures FormatSalaryExpectation(FormatSalaryExpectation(salary)) == FormatSalaryExpectation(salary)
  {
    CleanIdempotent(salary);
  }

  /** The resume's link: the candidate page under the base URL. */
  function Href(resumeId: int): string {
    BaseUrl + CandidatesPath + IntToString(resumeId)
  }

  /** One experience entry: the position, `datesDiff` as the duration and the company as the details. */
  function ExperienceOf(e: DocumentExperience): Experience {
    Experience(e.position, e.datesDiff, e.company)
  }

  /** `unpack_resume_from_response` followed by `models.Resume(**resume_json)`. */
  function UnpackResume(d: Document): (r: Resume)
    ensures r.href == BaseUrl + "/candidates/" + IntToString(d.resumeId)
    ensures r.salaryExpectation == Some(FormatSalaryExpectation(d.salary))
    ensures r.experience.Some? && |r.experience.value| == |d.experience|
    ensures forall i :: 0 <= i < |d.experience| ==>
              var e := d.experience[i];
              r.experience.value[i] == Experience(e.position, e.datesDiff, e.company)
    ensures r.fillingPercentage == d.fillingPercentage
  {
    Resume(Href(d.resumeId), Some(FormatSalaryExpectation(d.salary)), Some(MapSeq(d.experience, ExperienceOf)), d.fillingPercentage)
  }

  /** The link names the resume: two documents with the same link have the same ID. */
  lemma HrefIdentifiesResume(d: Document, d': Document)
    requires UnpackResume(d).href == UnpackResume(d').href
    ensures d.resumeId == d'.resumeId
  {
    var prefix := BaseUrl + CandidatesPath;
    var h := UnpackResume(d).href;
    assert h[|prefix|..] == IntToString(d.resumeId);
    assert UnpackResume(d').href[|prefix|..] == IntToString(d'.resumeId);
    ParseIntRoundTrip(d.resumeId);
    ParseIntRoundTrip(d'.resumeId);
  }

  /**
   * Apart from the white space trimmed off the salary, unpacking loses
   * nothing: equal resumes come from documents with the same ID, the same
   * experience list and the same filling percentage.
   */
  lemma UnpackResumeInjective(d: Document, d': Document)
    requires UnpackResume(d) == UnpackResume(d')
    ensures d.resumeId == d'.resumeId
    ensures d.experience == d'.experience
    ensures FormatSalaryExpectation(d.salary) == FormatSalaryExpectation(d'.salary)
    ensures d.fillingPercentage == d'.fillingPercentage
  {
    HrefIdentifiesResume(d, d');
    var xs, ys := UnpackResume(d).experience.value, UnpackResume(d').experience.value;
    forall i | 0 <= i < |d.experience| ensures d.experience[i] == d'.experience[i] {
      assert xs[i] == ys[i];
    }
  }

  /** The resumes of a list of documents, one per document and in document order. */
  function UnpackAll(docs: seq<Document>): (rs: seq<Resume>)
    ensures |rs| == |docs|
    ensures forall i :: 0 <= i < |docs| ==> rs[i] == UnpackResume(docs[i])
  {
    MapSeq(docs, UnpackResume)
  }

  // ----- the search payload -----

  /**
   * `cityId`: the ID of the region whose name best matches the user's
   * region, or None when nothing matches well enough. An absent region
   * matches nothing.
   */
  function CityId(cfg: Config, region: Option<string>): (r: Option<int>)
    ensures r.Some? <==> region.Some? && MostSimilarWord(region.value, Keys(cfg.regions), cfg.matcher) !in {None, Some("")}
    ensures r.Some? ==> Get(cfg.regions, MostSimilarWord(region.value, Keys(cfg.regions), cfg.matcher).value) == r
  {
    if region.None? then None
    else
      match MostSimilarWord(region.value, Keys(cfg.regions), cfg.matcher)
      case None => None
      case Some(name) =>
        if name == "" then None
        else
          var i :| 0 <= i < |cfg.regions| && Keys(cfg.regions)[i] == name;
          assert cfg.regions[i].0 == name;
          Get(cfg.regions, name)
  }

  /** `bool(d.get(label))` for an integer table. */
  predicate Truthy(v: Option<int>) {
    v.Some? && v.value != 0
  }

  /** `name` maps to the non-zero ID `id`. */
  predicate KnownAs(d: Dict<int>, name: string, id: int) {
    Get(d, name) == Some(id) && id != 0
  }

  /**
   * `[d.get(exp) for exp in labels if d.get(exp)]`: the IDs of the labels
   * that map to a non-zero ID, in the order of the labels.
   */
  function KnownIds(d: Dict<int>, labels: seq<string>): (ids: seq<int>)
    ensures |ids| <= |labels|
  {
    TruthyLookups((name: string) => Get(d, name), labels)
  }

  /** The comprehension for any lookup: the truthy results, in label order. */
  function TruthyLookups(look: string -> Option<int>, labels: seq<string>): (ids: seq<int>)
    ensures |ids| <= |labels|
  {
    if labels == [] then []
    else
      var n := |labels| - 1;
      var v := look(labels[n]);
      TruthyLookups(look, labels[..n]) + (if Truthy(v) then [v.value] else [])
  }

  lemma {:induction false} TruthyLookupsFromLabels(look: string -> Option<int>, labels: seq<string>, id: int)
    requires id in TruthyLookups(look, labels)
    ensures exists i :: 0 <= i < |labels| && look(labels[i]) == Some(id) && id != 0
  {
    var n := |labels| - 1;
    var p := labels[..n];
    if id in TruthyLookups(look, p) {
      TruthyLookupsFromLabels(look, p, id);
      var i :| 0 <= i < |p| && look(p[i]) == Some(id) && id != 0;
      assert labels[i] == p[i];
    } else {
      assert look(labels[n]) == Some(id) && id != 0;
    }
  }

  lemma {:induction false} TruthyLookupsOfLabels(look: string -> Option<int>, labels: seq<string>, i: nat)
    requires i < |labels| && Truthy(look(labels[i]))
    ensures look(labels[i]).value in TruthyLookups(look, labels)
  {
    var n := |labels| - 1;
    if i < n {
      var p := labels[..n];
      assert p[i] == labels[i];
      TruthyLookupsOfLabels(look, p, i);
    }
  }

  lemma {:induction false} TruthyLookupsConcat(look: string -> Option<int>, a: seq<string>, b: seq<string>)
    ensures TruthyLookups(look, a + b) == TruthyLookups(look, a) + TruthyLookups(look, b)
    decreases |b|
  {
    if b == [] {
      assert a + b == a;
    } else {
      var n := |b| - 1;
      assert (a + b)[..|a| + n] == a + b[..n];
      assert (a + b)[|a| + n] == b[n];
      TruthyLookupsConcat(look, a, b[..n]);
    }
  }

  lemma {:induction false} TruthyLookupsAllKnown(look: string -> Option<int>, labels: seq<string>, ids: seq<int>)
    requires |ids| == |labels| && forall i :: 0 <= i < |labels| ==> look(labels[i]) == Some(ids[i]) && ids[i] != 0
    ensures TruthyLookups(look, labels) == ids
  {
    if labels != [] {
      var n := |labels| - 1;
      var p, q := labels[..n], ids[..n];
      forall i | 0 <= i < n ensures look(p[i]) == Some(q[i]) && q[i] != 0 {
        assert p[i] == labels[i] && q[i] == ids[i];
      }
      TruthyLookupsAllKnown(look, p, q);
      assert ids == q + [ids[n]];
    }
  }

  /** Every listed ID is the ID of one of the labels. */
  lemma KnownIdsFromLabels(d: Dict<int>, labels: seq<string>, id: int)
    requires id in KnownIds(d, labels)
    ensures exists i :: 0 <= i < |labels| && KnownAs(d, labels[i], id)
  {
    TruthyLookupsFromLabels((name: string) => Get(d, name), labels, id);
  }

  /** The ID of every label that maps to a non-zero ID is listed. */
  lemma KnownIdsOfLabels(d: Dict<int>, labels: seq<string>, i: nat)
    requires i < |labels| && Truthy(Get(d, labels[i]))
    ensures Get(d, labels[i]).value in KnownIds(d, labels)
  {
    TruthyLookupsOfLabels((name: string) => Get(d, name), labels, i);
  }

  /** The comprehension works label by label: the IDs of two runs of labels are concatenated. */
  lemma KnownIdsConcat(d: Dict<int>, a: seq<string>, b: seq<string>)
    ensures KnownIds(d, a + b) == KnownIds(d, a) + KnownIds(d, b)
  {
    TruthyLookupsConcat((name: string) => Get(d, name), a, b);
  }

  /** Labels that are missing, or map to 0, contribute nothing. */
  lemma KnownIdsDropsUnknown(d: Dict<int>, a: seq<string>, name: string, b: seq<string>)
    requires !Truthy(Get(d, name))
    ensures KnownIds(d, a + [name] + b) == KnownIds(d, a + b)
  {
    var look := (name: string) => Get(d, name);
    assert [name][..0] == [];
    assert TruthyLookups(look, [name]) == [];
    TruthyLookupsConcat(look, a, [name]);
    TruthyLookupsConcat(look, a + [name], b);
    TruthyLookupsConcat(look, a, b);
  }

  /** When every label is known, there is one ID per label, in order. */
  lemma KnownIdsAllKnown(d: Dict<int>, labels: seq<string>, ids: seq<int>)
    requires |ids| == |labels| && forall i :: 0 <= i < |labels| ==> KnownAs(d, labels[i], ids[i])
    ensures KnownIds(d, labels) == ids
  {
    TruthyLookupsAllKnown((name: string) => Get(d, name), labels, ids);
  }

  /** `__unpack_search_options`, or the error it raises. */
  function SearchPayload(cfg: Config, params: SearchOptions): Result<Payload, RobotaError> {
    if params.experience.None? then Failure(TypeError)
    else
      var labels := params.experience.value;
      var base := Payload(CityId(cfg, params.region), params.search, params.salaryFrom, params.salaryTo,
                          KnownIds(cfg.experienceOptions, labels), None);
      if MoreThanFive !in labels then Success(base)
      else
        match Get(cfg.experienceOptions, FiveToTen)
        case None => Failure(KeyError(FiveToTen))
        case Some(mid) =>
          match Get(cfg.experienceOptions, MoreThanTen)
          case None => Failure(KeyError(MoreThanTen))
          case Some(long) => Success(base.(experienceIds := base.experienceIds + [mid, long]))
  }

  /**
   * `__unpack_search_options`: the payload with the matched city and the
   * known experience IDs, then, when "More than 5 years" is chosen, the IDs
   * of the two longer ranges appended in place.
   */
  method UnpackSearchOptions(cfg: Config, params: SearchOptions) returns (r: Result<Payload, RobotaError>)
    ensures r == SearchPayload(cfg, params)
  {
    var cityId := CityId(cfg, params.region);
    if params.experience.None? {
      return Failure(TypeError);
    }
    var labels := params.experience.value;
    var ids := KnownIds(cfg.experienceOptions, labels);
    if MoreThanFive in labels {
      var mid := Get(cfg.experienceOptions, FiveToTen);
      if mid.None? {
        return Failure(KeyError(FiveToTen));
      }
      ids := ids + [mid.value];
      var long := Get(cfg.experienceOptions, MoreThanTen);
      if long.None? {
        return Failure(KeyError(MoreThanTen));
      }
      ids := ids + [long.value];
      assert ids == KnownIds(cfg.experienceOptions, labels) + [mid.value, long.value];
    }
    r := Success(Payload(cityId, params.search, params.salaryFrom, params.salaryTo, ids, None));
  }

  /**
   * A payload is built exactly when the experience list is present and,
   * if it holds "More than 5 years", both longer ranges are in the table;
   * otherwise the first missing key is reported.
   */
  lemma SearchPayloadFails(cfg: Config, params: SearchOptions)
    ensures SearchPayload(cfg, params).Success? <==>
              params.experience.Some? &&
              (MoreThanFive in params.experience.value ==>
                 Get(cfg.experienceOptions, FiveToTen).Some? && Get(cfg.experienceOptions, MoreThanTen).Some?)
    ensures params.experience.None? ==> SearchPayload(cfg, params) == Failure(TypeError)
    ensures params.experience.Some? && MoreThanFive in params.experience.value &&
            Get(cfg.experienceOptions, FiveToTen).None? ==>
              SearchPayload(cfg, params) == Failure(KeyError(FiveToTen))
    ensures params.experience.Some? && MoreThanFive in params.experience.value &&
            Get(cfg.experienceOptions, FiveToTen).Some? && Get(cfg.experienceOptions, MoreThanTen).None? ==>
              SearchPayload(cfg, params) == Failure(KeyError(MoreThanTen))
  {
  }

  /**
   * A built payload passes the search text and the salary bounds through,
   * carries the matched city, no count, and the IDs of the known labels in
   * label order followed, for "More than 5 years", by the IDs of
   * "5 to 10 years" and "More than 10 years".
   */
  lemma SearchPayloadFacts(cfg: Config, params: SearchOptions)
    requires SearchPayload(cfg, params).Success?
    ensures var p := SearchPayload(cfg, params).value;
            var labels := params.experience.value;
            var ids := p.experienceIds;
            var known := KnownIds(cfg.experienceOptions, labels);
            && p.keyWords == params.search
            && p.salaryFrom == params.salaryFrom && p.salaryTo == params.salaryTo
            && p.cityId == CityId(cfg, params.region)
            && p.count.None?
            && ids[..|known|] == known
            && (MoreThanFive !in labels ==> ids == known)
            && (MoreThanFive in labels ==>
                  |ids| == |known| + 2 &&
                  Get(cfg.experienceOptions, FiveToTen) == Some(ids[|known|]) &&
                  Get(cfg.experienceOptions, MoreThanTen) == Some(ids[|known| + 1]))
  {
    var labels := params.experience.value;
    var known := KnownIds(cfg.experienceOptions, labels);
    var ids := SearchPayload(cfg, params).value.experienceIds;
    if MoreThanFive in labels {
      assert ids == known + [ids[|known|], ids[|known| + 1]];
    }
  }

  // ----- the search -----

  /** `search_resumes`: the resumes, None when the second response is neither 200 nor an HTTP error, or the error raised. */
  function SearchResumesOf(cfg: Config, io: RobotaIo, params: SearchOptions): Result<Option<seq<Resume>>, RobotaError> {
    match SearchPayload(cfg, params)
    case Failure(e) => Failure(e)
    case Success(payload) =>
      var first := io.post(payload);
      if first.total.None? then Failure(KeyError("total"))
      else
        var second := io.post(payload.(count := Some(first.total.value)));
        if second.status == 200 then
          if second.documents.None? then Failure(KeyError("documents"))
          else Success(Some(UnpackAll(second.documents.value)))
        else if 400 <= second.status < 600 then Failure(HttpError(second.status))
        else Success(None)
  }

  /** The loop of `search_resumes` over the documents of a 200 response. */
  method UnpackDocuments(docs: seq<Document>) returns (resumes: seq<Resume>)
    ensures resumes == UnpackAll(docs)
  {
    resumes := [];
    var k := 0;
    while k < |docs|
      invariant 0 <= k <= |docs|
      invariant resumes == MapSeq(docs[..k], UnpackResume)
    {
      MapSeqSnoc(docs, k, UnpackResume);
      resumes := resumes + [UnpackResume(docs[k])];
      k := k + 1;
    }
    assert docs[..k] == docs;
  }

  /**
   * `search_resumes`: post the payload to learn the total, post it again
   * asking for that many, and unpack the documents of a 200 response one by
   * one; an error status raises, any other status gives None.
   */
  method SearchResumes(cfg: Config, io: RobotaIo, params: SearchOptions) returns (r: Result<Option<seq<Resume>>, RobotaError>)
    ensures r == SearchResumesOf(cfg, io, params)
  {
    var payload := UnpackSearchOptions(cfg, params);
    if payload.Failure? {
      return Failure(payload.error);
    }
    var response := io.post(payload.value);
    if response.total.None? {
      return Failure(KeyError("total"));
    }
    var total := response.total.value;
    var counted := payload.value.(count := Some(total));
    response := io.post(counted);
    if response.status == 200 {
      if response.documents.None? {
        return Failure(KeyError("documents"));
      }
      var resumes := UnpackDocuments(response.documents.value);
      return Success(Some(resumes));
    } else if 400 <= response.status < 600 {
      return Failure(HttpError(response.status));
    }
    r := Success(None);
  }

  /**
   * The second request is the first one with `count` set to the total the
   * first response reported; the search yields resumes exactly when that
   * request returns 200 with documents, and then one resume per document,
   * in document order.
   */
  lemma SearchResumesFacts(cfg: Config, io: RobotaIo, params: SearchOptions)
    requires SearchPayload(cfg, params).Success?
    ensures var payload := SearchPayload(cfg, params).value;
            var first := io.post(payload);
            var r := SearchResumesOf(cfg, io, params);
            && (first.total.None? ==> r == Failure(KeyError("total")))
            && (first.total.Some? ==>
                  var second := io.post(payload.(count := first.total));
                  && (r.Success? && r.value.Some? <==> second.status == 200 && second.documents.Some?)
                  && (r.Success? && r.value.Some? ==>
                        var docs := second.documents.value;
                        |r.value.value| == |docs| &&
                        forall i :: 0 <= i < |docs| ==> r.value.value[i] == UnpackResume(docs[i]))
                  && (r == Failure(HttpError(second.status)) <==> 400 <= second.status < 600))
  {
  }
}
