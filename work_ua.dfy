/**
 * The Work.ua adapter: it turns the search options into query
 * parameters, reads the candidate count off the first listing page, fetches
 * page 1, then the even pages, then the odd pages (the order the source uses
 * to avoid a Forbidden reply),
 * collects the resume links, fetches every resume page and parses it into a
 * resume with a filling percentage.
 *
 * What comes over the network or out of BeautifulSoup and NLTK is given as
 * functions in `ScrapeIo`; the JSON lookup tables are given in `Config`.
 */
module WorkUa {
  import opened Wrappers
  import opened Text
  import opened Dicts
  import opened Models
  import opened Nlp

  /** Resumes per listing page. */
  const PageSize: nat := 14

  /** The parser's configuration: `WORK_UA_URL`, the loaded lookup tables and the fuzzy matcher. */
  datatype Config = Config(
    baseUrl: string,
    regions: Dict<int>,
    salaryFromOptions: Dict<string>,
    salaryToOptions: Dict<string>,
    experienceOptions: Dict<string>,
    matcher: Matcher)

  /** A value of the query-parameter dict. */
  datatype Value = Str(s: string) | Int(i: int) | Null

  type Payload = map<string, Value>

  /** The exceptions the adapter lets escape. */
  datatype WorkUaError =
    | KeyError(key: string)
    | ListingFetchFailed(page: nat)
    | CandidateCountMissing
    | SalaryWordMissing

  // ----- the candidate count -----

  function LowerAscii(c: char): char {
    if 'A' <= c <= 'Z' then (c as int + 32) as char else c
  }

  const CandidateWord: string := "candidate"

  /** `candidate` at `m`, letters compared without regard to case. */
  predicate CandidateAt(s: string, m: nat) {
    m + |CandidateWord| <= |s| &&
    forall k :: 0 <= k < |CandidateWord| ==> LowerAscii(s[m + k]) == CandidateWord[k]
  }

  /** The end of the run of decimal digits that starts at `i`. */
  function DigitRunEnd(s: string, i: nat): (j: nat)
    requires i <= |s|
    ensures i <= j <= |s|
    ensures forall k :: i <= k < j ==> IsDigit(s[k])
    ensures j < |s| ==> !IsDigit(s[j])
    decreases |s| - i
  {
    if i == |s| || !IsDigit(s[i]) then i else DigitRunEnd(s, i + 1)
  }

  /**
   * The pattern `(\d+)\s+(candidate|candidates)` matches at `i`. `\d+` takes
   * the whole digit run and `\s+` the whole space run, because giving either
   * back cannot make `candidate` follow.
   */
  predicate MatchAt(s: string, i: nat) {
    i <= |s| &&
    var j := DigitRunEnd(s, i);
    j > i && SkipSpaces(s, j) > j && CandidateAt(s, SkipSpaces(s, j))
  }

  /** The first position from `i` up to `n` (exclusive) where `p` holds. */
  function FirstFrom(p: nat -> bool, i: nat, n: nat): (r: Option<nat>)
    ensures r.Some? ==> i <= r.value < n
    decreases n - i
  {
    if i >= n then None
    else if p(i) then Some(i)
    else FirstFrom(p, i + 1, n)
  }

  lemma {:induction false} FirstFromFacts(p: nat -> bool, i: nat, n: nat)
    ensures FirstFrom(p, i, n).None? <==> forall k :: i <= k < n ==> !p(k)
    ensures FirstFrom(p, i, n).Some? ==>
              && p(FirstFrom(p, i, n).value)
              && forall k :: i <= k < FirstFrom(p, i, n).value ==> !p(k)
    decreases n - i
  {
    if i < n && !p(i) {
      FirstFromFacts(p, i + 1, n);
    }
  }

  /** Where `re.search` finds its match: the first position at or after `i` that matches. */
  function FirstMatchFrom(s: string, i: nat): (r: Option<nat>)
    requires i <= |s|
    ensures r.Some? ==> i <= r.value < |s|
  {
    FirstFrom((k: nat) => MatchAt(s, k), i, |s|)
  }

  /** The search finds the leftmost match at or after `i`, or reports that there is none. */
  lemma FirstMatchFromFacts(s: string, i: nat)
    requires i <= |s|
    ensures FirstMatchFrom(s, i).None? <==> forall k :: i <= k <= |s| ==> !MatchAt(s, k)
    ensures FirstMatchFrom(s, i).Some? ==>
              MatchAt(s, FirstMatchFrom(s, i).value) &&
              forall k :: i <= k < FirstMatchFrom(s, i).value ==> !MatchAt(s, k)
  {
    var p := (k: nat) => MatchAt(s, k);
    FirstFromFacts(p, i, |s|);
    assert forall k: nat :: p(k) == MatchAt(s, k);
    assert DigitRunEnd(s, |s|) == |s|;
    assert !MatchAt(s, |s|);
  }

  /**
   * `get_total_candidates` on the page's text: the number in the leftmost
   * match, or None where the source raises "Unable to find candidate count".
   */
  function GetTotalCandidates(text: string): (r: Option<nat>)
    ensures r.None? <==> forall k :: 0 <= k <= |text| ==> !MatchAt(text, k)
  {
    FirstMatchFromFacts(text, 0);
    match FirstMatchFrom(text, 0)
    case None => None
    case Some(i) => Some(DigitsValue(text[i..DigitRunEnd(text, i)]))
  }

  /** The count comes from the leftmost match, read as a whole digit run. */
  lemma CandidateCountIsLeftmost(text: string, i: nat)
    requires MatchAt(text, i)
    requires forall k :: 0 <= k < i ==> !MatchAt(text, k)
    ensures GetTotalCandidates(text) == Some(DigitsValue(text[i..DigitRunEnd(text, i)]))
  {
    var f := FirstMatchFrom(text, 0);
    FirstMatchFromFacts(text, 0);
    assert f.Some?;
    assert f.value == i;
  }

  lemma {:induction false} DigitRunEndShared(s: string, i: nat)
    requires 0 < i <= |s| && IsDigit(s[i - 1])
    ensures DigitRunEnd(s, i - 1) == DigitRunEnd(s, i)
  {
  }

  /** The leftmost match starts a digit run, so no leading digit is lost. */
  lemma {:induction false} LeftmostMatchStartsDigitRun(text: string, i: nat)
    requires FirstMatchFrom(text, 0) == Some(i)
    ensures i == 0 || !IsDigit(text[i - 1])
  {
    FirstMatchFromFacts(text, 0);
    if i > 0 && IsDigit(text[i - 1]) {
      DigitRunEndShared(text, i);
      assert MatchAt(text, i - 1);
      assert false;
    }
  }

  // ----- the page plan -----

  /** `math.ceil(total_candidates / 14)`. */
  function TotalPages(total: nat): (n: nat)
    ensures n * PageSize >= total
    ensures n > 0 ==> (n - 1) * PageSize < total
  {
    (total + PageSize - 1) / PageSize
  }

  /** `range(start, last + 1, 2)`. */
  function Stride(start: nat, last: nat): (r: seq<nat>)
    ensures |r| == if start > last then 0 else (last - start) / 2 + 1
    ensures forall k :: 0 <= k < |r| ==> r[k] == start + 2 * k
  {
    if start > last then [] else seq((last - start) / 2 + 1, k => start + 2 * k)
  }

  /** The `k`-th page of the stride exists exactly when it is not past `last`. */
  lemma StrideIndex(start: nat, last: nat, k: nat)
    ensures k < |Stride(start, last)| <==> start + 2 * k <= last
  {
    if start <= last {
      var q := (last - start) / 2;
      assert last - start == 2 * q + (last - start) % 2;
    }
  }

  lemma StrideMembers(start: nat, last: nat, p: nat)
    ensures p in Stride(start, last) <==> start <= p <= last && (p - start) % 2 == 0
  {
    var r := Stride(start, last);
    if start <= p <= last && (p - start) % 2 == 0 {
      assert r[(p - start) / 2] == p;
    }
  }

  /** Page 1 (fetched first, for the count), then the even pages, then the odd ones. */
  function PagePlan(totalPages: nat): seq<nat> {
    [1] + Stride(2, totalPages) + Stride(3, totalPages)
  }

  function Max(a: nat, b: nat): nat { if a < b then b else a }

  /**
   * Every page from 1 to the last page (at least page 1) is fetched exactly
   * once, and page 1 comes first.
   */
  lemma PagePlanCoversEachPageOnce(n: nat)
    ensures PagePlan(n)[0] == 1
    ensures |PagePlan(n)| == Max(1, n)
    ensures forall p :: p in PagePlan(n) <==> 1 <= p <= Max(1, n)
    ensures forall i, j :: 0 <= i < j < |PagePlan(n)| ==> PagePlan(n)[i] != PagePlan(n)[j]
  {
    var plan := PagePlan(n);
    var ev, od := Stride(2, n), Stride(3, n);
    forall p: nat ensures p in plan <==> 1 <= p <= Max(1, n) {
      StrideMembers(2, n, p);
      StrideMembers(3, n, p);
    }
    forall i, j | 0 <= i < j < |plan| ensures plan[i] != plan[j] {
      if i > 0 && i <= |ev| && j > |ev| {
        assert plan[i] == ev[i - 1] && plan[j] == od[j - 1 - |ev|];
      }
    }
  }

  // ----- the query parameters -----

  /** A lookup in a loaded table; a missing key raises KeyError. */
  function Lookup(d: Dict<string>, key: string): (r: Result<string, WorkUaError>)
    ensures r.Failure? <==> Get(d, key).None?
    ensures r.Failure? ==> r.error == KeyError(key)
    ensures r.Success? ==> Get(d, key) == Some(r.value)
  {
    match Get(d, key)
    case None => Failure(KeyError(key))
    case Some(v) => Success(v)
  }

  /** `self.EXPERIENCE_OPTIONS[exp]`. */
  function ExperienceId(cfg: Config): string -> Result<string, WorkUaError> {
    name => Lookup(cfg.experienceOptions, name)
  }

  /** A salary bound is used when it is truthy: given and non-zero. */
  predicate Truthy(amount: Option<int>) {
    amount.Some? && amount.value != 0
  }

  predicate HasLabels(labels: Option<seq<string>>) {
    labels.Some? && labels.value != []
  }

  /**
   * `payload["region"]`: the ID of the region whose name best matches the
   * user's text, or None when nothing matches well enough.
   */
  function RegionValue(cfg: Config, region: string): (v: Value)
    ensures v.Null? <==> MostSimilarWord(region, Keys(cfg.regions), cfg.matcher) in {None, Some("")}
    ensures v.Int? ==> Get(cfg.regions, MostSimilarWord(region, Keys(cfg.regions), cfg.matcher).value) == Some(v.i)
  {
    match MostSimilarWord(region, Keys(cfg.regions), cfg.matcher)
    case None => Null
    case Some(name) =>
      if name == "" then Null
      else
        var i :| 0 <= i < |cfg.regions| && Keys(cfg.regions)[i] == name;
        assert cfg.regions[i].0 == name;
        Int(Get(cfg.regions, name).value)
  }

  /** What `__unpack_search_options` returns, key by key in the order the source inserts them. */
  function SearchPayload(cfg: Config, params: SearchOptions): Result<Payload, WorkUaError> {
    var p0: Payload := map["search" := Str(params.search)];
    var p1 := if params.region.Some? && params.region.value != ""
              then p0["region" := RegionValue(cfg, params.region.value)] else p0;
    var from := if Truthy(params.salaryFrom)
                then Lookup(cfg.salaryFromOptions, IntToString(params.salaryFrom.value)) else Success("");
    var to := if Truthy(params.salaryTo)
              then Lookup(cfg.salaryToOptions, IntToString(params.salaryTo.value)) else Success("");
    var ids := if HasLabels(params.experience)
               then TryMap(params.experience.value, ExperienceId(cfg)) else Success([]);
    if from.Failure? then Failure(from.error)
    else if to.Failure? then Failure(to.error)
    else if ids.Failure? then Failure(ids.error)
    else
      var p2 := if Truthy(params.salaryFrom) then p1["salaryfrom" := Str(from.value)] else p1;
      var p3 := if Truthy(params.salaryTo) then p2["salaryto" := Str(to.value)] else p2;
      Success(if HasLabels(params.experience) then p3["experience" := Str(Join(ids.value, "+"))] else p3)
  }

  /** The IDs of the chosen labels, looked up one by one; the first unknown label raises KeyError. */
  method ExperienceIds(cfg: Config, labels: seq<string>) returns (r: Result<seq<string>, WorkUaError>)
    ensures r == TryMap(labels, ExperienceId(cfg))
  {
    var ids: seq<string> := [];
    var k := 0;
    while k < |labels|
      invariant 0 <= k <= |labels|
      invariant TryMap(labels[..k], ExperienceId(cfg)) == Success(ids)
    {
      var id := Get(cfg.experienceOptions, labels[k]);
      TryMapStep(labels, k, ExperienceId(cfg), ids);
      if id.None? {
        return Failure(KeyError(labels[k]));
      }
      ids := ids + [id.value];
      k := k + 1;
    }
    assert labels[..k] == labels;
    return Success(ids);
  }

  /** `__unpack_search_options`, filling the dict one key at a time. */
  method UnpackSearchOptions(cfg: Config, params: SearchOptions) returns (r: Result<Payload, WorkUaError>)
    ensures r == SearchPayload(cfg, params)
  {
    var payload: Payload := map["search" := Str(params.search)];
    if params.region.Some? && params.region.value != "" {
      payload := payload["region" := RegionValue(cfg, params.region.value)];
    }
    if Truthy(params.salaryFrom) {
      var key := IntToString(params.salaryFrom.value);
      var v := Get(cfg.salaryFromOptions, key);
      if v.None? {
        return Failure(KeyError(key));
      }
      payload := payload["salaryfrom" := Str(v.value)];
    }
    if Truthy(params.salaryTo) {
      var key := IntToString(params.salaryTo.value);
      var v := Get(cfg.salaryToOptions, key);
      if v.None? {
        return Failure(KeyError(key));
      }
      payload := payload["salaryto" := Str(v.value)];
    }
    if HasLabels(params.experience) {
      var ids := ExperienceIds(cfg, params.experience.value);
      if ids.Failure? {
        return Failure(ids.error);
      }
      payload := payload["experience" := Str(Join(ids.value, "+"))];
    }
    return Success(payload);
  }

  /**
   * The payload always carries the search text; each other key is present
   * exactly when its option is truthy and then holds the looked-up value;
   * `experience` joins the IDs of the chosen labels with `+` in input order.
   */
  lemma SearchPayloadKeys(cfg: Config, params: SearchOptions)
    requires SearchPayload(cfg, params).Success?
    ensures var p := SearchPayload(cfg, params).value;
            && p.Keys <= {"search", "region", "salaryfrom", "salaryto", "experience"}
            && "search" in p && p["search"] == Str(params.search)
            && ("region" in p <==> params.region.Some? && params.region.value != "")
            && ("region" in p ==> p["region"] == RegionValue(cfg, params.region.value))
            && ("salaryfrom" in p <==> Truthy(params.salaryFrom))
            && ("salaryfrom" in p ==>
                  Get(cfg.salaryFromOptions, IntToString(params.salaryFrom.value)) == Some(p["salaryfrom"].s))
            && ("salaryto" in p <==> Truthy(params.salaryTo))
            && ("salaryto" in p ==>
                  Get(cfg.salaryToOptions, IntToString(params.salaryTo.value)) == Some(p["salaryto"].s))
            && ("experience" in p <==> HasLabels(params.experience))
  {
  }

  /** The IDs joined into `experience` are the table entries of the labels, one per label, in order. */
  lemma SearchPayloadExperience(cfg: Config, params: SearchOptions)
    requires SearchPayload(cfg, params).Success? && HasLabels(params.experience)
    ensures var labels := params.experience.value;
            var ids := TryMap(labels, ExperienceId(cfg));
            && ids.Success?
            && SearchPayload(cfg, params).value["experience"] == Str(Join(ids.value, "+"))
            && |ids.value| == |labels|
            && forall i :: 0 <= i < |labels| ==> Get(cfg.experienceOptions, labels[i]) == Some(ids.value[i])
  {
    var labels := params.experience.value;
    TryMapSuccess(labels, ExperienceId(cfg));
  }

  /** The payload cannot be built exactly when a truthy option has no entry in its table. */
  lemma SearchPayloadFails(cfg: Config, params: SearchOptions)
    ensures SearchPayload(cfg, params).Failure? <==>
              || (Truthy(params.salaryFrom) && Get(cfg.salaryFromOptions, IntToString(params.salaryFrom.value)).None?)
              || (Truthy(params.salaryTo) && Get(cfg.salaryToOptions, IntToString(params.salaryTo.value)).None?)
              || (HasLabels(params.experience) &&
                  exists i :: 0 <= i < |params.experience.value| &&
                              Get(cfg.experienceOptions, params.experience.value[i]).None?)
  {
    if HasLabels(params.experience) {
      var labels := params.experience.value;
      TryMapSuccess(labels, ExperienceId(cfg));
      if TryMap(labels, ExperienceId(cfg)).Failure? {
        var i :| 0 <= i < |labels| && !ExperienceId(cfg)(labels[i]).Success?;
        assert Get(cfg.experienceOptions, labels[i]).None?;
      }
    }
  }

  // ----- what the network and the HTML and NLP libraries supply -----

  /** A child of the resume's section element that follows the "Work experience" heading. */
  datatype Sibling =
    | PositionHeading(text: string)
      /** A `p.mb-0`: its text joined with single spaces, and the text of its `span.text-default-7` if it has one. */
    | DetailsParagraph(text: string, durationSpan: Option<string>)
    | OtherSibling

  /**
   * What `parse_resume` reads off a resume page: the `content` of the
   * Description meta tag ("" when it has none; None without the tag), the
   * siblings after the "Work experience" heading (None without the heading),
   * and the NLTK tokens of the lower-cased page text.
   */
  datatype ResumePage = ResumePage(
    description: Option<string>,
    workExperience: Option<seq<Sibling>>,
    tokens: seq<string>)

  /**
   * The outside world: the listing page for a query (None where the request
   * raises), the text of a page, the resume links on a listing page, the
   * resume page behind a link (None on a request error), and what parsing a
   * resume page finds.
   */
  datatype ScrapeIo = ScrapeIo(
    fetchListing: Payload -> Option<string>,
    pageText: string -> string,
    resumeLinks: string -> seq<string>,
    fetchResume: string -> Option<string>,
    resumePage: string -> ResumePage,
    stopWords: set<string>)

  // ----- the listing pages -----

  /** One listing page; a failed request raises. */
  function FetchPage(io: ScrapeIo, payload: Payload): nat -> Result<string, WorkUaError> {
    (page: nat) => match io.fetchListing(payload["page" := Int(page)])
            case None => Failure(ListingFetchFailed(page))
            case Some(html) => Success(html)
  }

  /**
   * What `get_resume_pages` returns: page 1, then the even and then the odd
   * pages up to the page count; the first failed request raises.
   */
  function ResumePages(io: ScrapeIo, payload: Payload): Result<seq<string>, WorkUaError> {
    match FetchPage(io, payload)(1)
    case Failure(e) => Failure(e)
    case Success(html) =>
      match GetTotalCandidates(io.pageText(html))
      case None => Failure(CandidateCountMissing)
      case Some(total) =>
        var n := TotalPages(total);
        Chain(Chain(Success([html]), TryMap(Stride(2, n), FetchPage(io, payload))),
              TryMap(Stride(3, n), FetchPage(io, payload)))
  }

  /** A loop `for page in range(start, totalPages + 1, 2)` appending each fetched page. */
  method FetchStride(io: ScrapeIo, payload: Payload, start: nat, totalPages: nat) returns (r: Result<seq<string>, WorkUaError>)
    ensures r == TryMap(Stride(start, totalPages), FetchPage(io, payload))
  {
    ghost var pages := Stride(start, totalPages);
    var fetched: seq<string> := [];
    var page: nat := start;
    ghost var k: nat := 0;
    StrideIndex(start, totalPages, 0);
    while page <= totalPages
      invariant page == start + 2 * k && k <= |pages|
      invariant k < |pages| <==> page <= totalPages
      invariant TryMap(pages[..k], FetchPage(io, payload)) == Success(fetched)
    {
      var response := io.fetchListing(payload["page" := Int(page)]);
      assert pages[k] == page;
      TryMapStep(pages, k, FetchPage(io, payload), fetched);
      if response.None? {
        return Failure(ListingFetchFailed(page));
      }
      fetched := fetched + [response.value];
      page := page + 2;
      k := k + 1;
      StrideIndex(start, totalPages, k);
    }
    assert pages[..k] == pages;
    return Success(fetched);
  }

  /** `get_resume_pages`: page 1, the candidate count, then the even and the odd pages. */
  method GetResumePages(io: ScrapeIo, payload: Payload) returns (r: Result<seq<string>, WorkUaError>)
    ensures r == ResumePages(io, payload)
  {
    var first := io.fetchListing(payload["page" := Int(1)]);
    if first.None? {
      return Failure(ListingFetchFailed(1));
    }
    var html := first.value;
    var total := GetTotalCandidates(io.pageText(html));
    if total.None? {
      return Failure(CandidateCountMissing);
    }
    var totalPages := TotalPages(total.value);
    var htmlPages := [html];
    var evens := FetchStride(io, payload, 2, totalPages);
    if evens.Failure? {
      return Failure(evens.error);
    }
    htmlPages := htmlPages + evens.value;
    var odds := FetchStride(io, payload, 3, totalPages);
    if odds.Failure? {
      return Failure(odds.error);
    }
    htmlPages := htmlPages + odds.value;
    return Success(htmlPages);
  }

  lemma PagePlanRest(n: nat)
    ensures PagePlan(n)[1..] == Stride(2, n) + Stride(3, n)
  {
  }

  /** `ResumePages` is page 1 followed by the rest of the plan. */
  lemma ResumePagesAsPlan(io: ScrapeIo, payload: Payload, html: string, total: nat)
    requires io.fetchListing(payload["page" := Int(1)]) == Some(html)
    requires GetTotalCandidates(io.pageText(html)) == Some(total)
    ensures ResumePages(io, payload) ==
              Chain(Success([html]), TryMap(PagePlan(TotalPages(total))[1..], FetchPage(io, payload)))
  {
    var n := TotalPages(total);
    var f := FetchPage(io, payload);
    PagePlanRest(n);
    TryMapConcat(Stride(2, n), Stride(3, n), f);
    ChainAssociative(Success([html]), TryMap(Stride(2, n), f), TryMap(Stride(3, n), f));
  }

  lemma FetchPageMeaning(io: ScrapeIo, payload: Payload, page: nat)
    ensures FetchPage(io, payload)(page).Success? <==> io.fetchListing(payload["page" := Int(page)]).Some?
    ensures FetchPage(io, payload)(page).Success? ==>
              io.fetchListing(payload["page" := Int(page)]) == Some(FetchPage(io, payload)(page).value)
  {
  }

  /**
   * Once page 1 and its count are in, the pages come back exactly when every
   * planned page can be fetched, one per entry of the plan and in its order.
   */
  lemma ResumePagesFollowPlan(io: ScrapeIo, payload: Payload, html: string, total: nat)
    requires io.fetchListing(payload["page" := Int(1)]) == Some(html)
    requires GetTotalCandidates(io.pageText(html)) == Some(total)
    ensures var plan := PagePlan(TotalPages(total));
            var r := ResumePages(io, payload);
            && (r.Success? <==> forall k :: 0 <= k < |plan| ==> io.fetchListing(payload["page" := Int(plan[k])]).Some?)
            && (r.Success? ==>
                  && |r.value| == |plan|
                  && forall k :: 0 <= k < |plan| ==> io.fetchListing(payload["page" := Int(plan[k])]) == Some(r.value[k]))
  {
    var plan := PagePlan(TotalPages(total));
    var rest := plan[1..];
    var f := FetchPage(io, payload);
    ResumePagesAsPlan(io, payload, html, total);
    TryMapSuccess(rest, f);
    var r := ResumePages(io, payload);
    if TryMap(rest, f).Success? {
      var vs := TryMap(rest, f).value;
      assert r == Success([html] + vs);
      forall k | 0 <= k < |plan| ensures io.fetchListing(payload["page" := Int(plan[k])]) == Some(r.value[k]) {
        if k > 0 {
          assert plan[k] == rest[k - 1];
          FetchPageMeaning(io, payload, rest[k - 1]);
        }
      }
    } else {
      var k :| 0 <= k < |rest| && !f(rest[k]).Success?;
      FetchPageMeaning(io, payload, rest[k]);
      assert plan[k + 1] == rest[k];
    }
  }

  // ----- one resume page -----

  const SalaryMarker: string := "salary starting at"

  /**
   * The salary in the Description meta tag: the first word after the last
   * "salary starting at". When only whitespace follows, `split()[0]` raises
   * IndexError.
   */
  function SalaryOf(description: Option<string>): (r: Result<Option<string>, WorkUaError>)
    ensures r.Success? && r.value.Some? ==>
              r.value.value != [] && forall k :: 0 <= k < |r.value.value| ==> !IsSpace(r.value.value[k])
    ensures (description.None? || !Contains(description.value, SalaryMarker)) ==> r == Success(None)
    ensures description.Some? && Contains(description.value, SalaryMarker) ==>
              var after := LastPiece(description.value, SalaryMarker);
              && (r.Failure? <==> forall k :: 0 <= k < |after| ==> IsSpace(after[k]))
              && (r.Failure? ==> r.error == SalaryWordMissing)
              && (r.Success? ==> r.value == FirstWord(after))
  {
    match description
    case None => Success(None)
    case Some(d) =>
      if !Contains(d, SalaryMarker) then Success(None)
      else match FirstWord(LastPiece(d, SalaryMarker))
        case None => Failure(SalaryWordMissing)
        case Some(w) =>
          StripTrimmed(w);
          Success(Some(Strip(w)))
  }

  /** The index of the first details paragraph at or after `i`. */
  function NextDetails(s: seq<Sibling>, i: nat): (r: Option<nat>)
    requires i <= |s|
    ensures r.None? <==> forall k :: i <= k < |s| ==> !s[k].DetailsParagraph?
    ensures r.Some? ==> i <= r.value < |s| && s[r.value].DetailsParagraph? &&
                        forall k :: i <= k < r.value ==> !s[k].DetailsParagraph?
    decreases |s| - i
  {
    if i == |s| then None
    else if s[i].DetailsParagraph? then Some(i)
    else NextDetails(s, i + 1)
  }

  /** A position heading with some details paragraph after it (`find_next_sibling("p", class_="mb-0")`). */
  predicate DetailedHeading(s: seq<Sibling>, i: nat) {
    i < |s| && s[i].PositionHeading? && NextDetails(s, i + 1).Some?
  }

  /**
   * One experience entry: the stripped heading, the cleaned duration span,
   * and the paragraph text without the duration, cleaned.
   */
  function MakeEntry(heading: string, p: Sibling): (e: Experience)
    requires p.DetailsParagraph?
    ensures e.position == Some(Strip(heading))
    ensures e.duration.Some? <==> p.durationSpan.Some?
    ensures e.duration.Some? ==> e.duration.value == Clean(p.durationSpan.value)
    ensures e.details.Some? && NBSP !in e.details.value && Trimmed(e.details.value)
  {
    var duration := if p.durationSpan.Some? then Some(Clean(p.durationSpan.value)) else None;
    Experience(Some(Strip(heading)), duration, Some(Clean(RemoveAll(p.text, duration.GetOr("")))))
  }

  /** The details drop out the duration only where it occurs; a paragraph without it is just cleaned. */
  lemma MakeEntryWithoutDuration(heading: string, p: Sibling)
    requires p.DetailsParagraph?
    requires p.durationSpan.None? || !Contains(p.text, Clean(p.durationSpan.value))
    ensures MakeEntry(heading, p).details == Some(Clean(p.text))
  {
    if p.durationSpan.Some? {
      RemoveAllAbsent(p.text, Clean(p.durationSpan.value));
    }
  }

  /**
   * `details_text.replace(duration, "")` where the duration occurs once: the
   * details are the text on either side of it, cleaned.
   */
  lemma MakeEntryRemovesDuration(heading: string, p: Sibling, before: string, after: string)
    requires p.DetailsParagraph? && p.durationSpan.Some?
    requires p.text == before + Clean(p.durationSpan.value) + after
    requires forall i :: 0 <= i < |before| ==> !OccursAt(p.text, Clean(p.durationSpan.value), i)
    requires !Contains(after, Clean(p.durationSpan.value))
    ensures MakeEntry(heading, p).details == Some(Clean(before + after))
  {
    var d := Clean(p.durationSpan.value);
    if d == [] {
      assert p.text == before + after;
    } else {
      RemoveAllOnce(before, d, after);
    }
  }

  function EntryAt(s: seq<Sibling>, i: nat): Experience
    requires DetailedHeading(s, i)
  {
    MakeEntry(s[i].text, s[NextDetails(s, i + 1).value])
  }

  /** The entries of the detailed headings among the first `k` siblings, in document order. */
  function EntriesBefore(s: seq<Sibling>, k: nat): seq<Experience>
    requires k <= |s|
  {
    if k == 0 then []
    else EntriesBefore(s, k - 1) + (if DetailedHeading(s, k - 1) then [EntryAt(s, k - 1)] else [])
  }

  function Experiences(s: seq<Sibling>): seq<Experience> {
    EntriesBefore(s, |s|)
  }

  /** The positions of the detailed headings among the first `k` siblings. */
  function DetailedHeadings(s: seq<Sibling>, k: nat): (r: seq<nat>)
    requires k <= |s|
    ensures forall a :: 0 <= a < |r| ==> r[a] < k && DetailedHeading(s, r[a])
  {
    Positions((i: nat) => DetailedHeading(s, i), k)
  }

  /** The positions below `k` where `p` holds, in increasing order. */
  function Positions(p: nat -> bool, k: nat): (r: seq<nat>)
    ensures forall a :: 0 <= a < |r| ==> r[a] < k && p(r[a])
  {
    if k == 0 then [] else Positions(p, k - 1) + (if p(k - 1) then [k - 1] else [])
  }

  lemma {:induction false} PositionsFacts(p: nat -> bool, k: nat)
    ensures forall i: nat :: i in Positions(p, k) <==> i < k && p(i)
    ensures forall a, b :: 0 <= a < b < |Positions(p, k)| ==> Positions(p, k)[a] < Positions(p, k)[b]
  {
    if k > 0 {
      PositionsFacts(p, k - 1);
    }
  }

  /** Exactly the detailed headings among the first `k` siblings, in increasing order. */
  lemma DetailedHeadingsFacts(s: seq<Sibling>, k: nat)
    requires k <= |s|
    ensures forall i: nat :: i in DetailedHeadings(s, k) <==> i < k && DetailedHeading(s, i)
    ensures forall a, b :: 0 <= a < b < |DetailedHeadings(s, k)| ==> DetailedHeadings(s, k)[a] < DetailedHeadings(s, k)[b]
  {
    PositionsFacts((i: nat) => DetailedHeading(s, i), k);
  }

  /**
   * One entry per position heading that has a details paragraph after it,
   * in document order; headings without one are skipped.
   */
  lemma {:induction false} EntriesFollowHeadings(s: seq<Sibling>, k: nat)
    requires k <= |s|
    ensures |EntriesBefore(s, k)| == |DetailedHeadings(s, k)|
    ensures forall j :: 0 <= j < |EntriesBefore(s, k)| ==>
              EntriesBefore(s, k)[j] == EntryAt(s, DetailedHeadings(s, k)[j])
  {
    if k > 0 {
      var before, headings := EntriesBefore(s, k - 1), DetailedHeadings(s, k - 1);
      EntriesFollowHeadings(s, k - 1);
      forall j | 0 <= j < |before|
        ensures EntriesBefore(s, k)[j] == EntryAt(s, DetailedHeadings(s, k)[j])
      {
        assert EntriesBefore(s, k)[j] == before[j] && DetailedHeadings(s, k)[j] == headings[j];
      }
    }
  }

  /** Without a details paragraph there are no entries. */
  lemma {:induction false} NoParagraphNoEntries(s: seq<Sibling>, k: nat)
    requires k <= |s|
    requires forall i :: 0 <= i < |s| ==> !s[i].DetailsParagraph?
    ensures EntriesBefore(s, k) == []
  {
    if k > 0 {
      NoParagraphNoEntries(s, k - 1);
    }
  }

  /**
   * `find_next_sibling` looks past other headings, so a heading without its
   * own paragraph borrows the next heading's.
   */
  lemma SharedParagraph(a: string, b: string, text: string)
    ensures var s := [PositionHeading(a), PositionHeading(b), DetailsParagraph(text, None)];
            Experiences(s) == [MakeEntry(a, s[2]), MakeEntry(b, s[2])]
  {
    var s := [PositionHeading(a), PositionHeading(b), DetailsParagraph(text, None)];
    assert NextDetails(s, 1) == Some(2);
    assert NextDetails(s, 2) == Some(2);
    assert EntriesBefore(s, 1) == [MakeEntry(a, s[2])];
    assert EntriesBefore(s, 2) == [MakeEntry(a, s[2]), MakeEntry(b, s[2])];
  }

  // ----- the filling percentage -----

  /** How many tokens are alphanumeric and not stop words. */
  function MeaningfulCount(tokens: seq<string>, stopWords: set<string>): (n: nat)
    ensures n <= |tokens|
  {
    if tokens == [] then 0
    else
      var t := tokens[|tokens| - 1];
      MeaningfulCount(tokens[..|tokens| - 1], stopWords) + (if IsAlnum(t) && t !in stopWords then 1 else 0)
  }

  /**
   * Python's `round` of the exact quotient `n / d`: the nearest integer, and
   * the even one of the two at an exact half.
   */
  function RoundHalfEven(n: nat, d: nat): (r: nat)
    requires d > 0
    ensures 2 * n <= (2 * r + 1) * d
    ensures (2 * r - 1) * d <= 2 * n
    ensures 2 * n == (2 * r + 1) * d || 2 * n == (2 * r - 1) * d ==> r % 2 == 0
  {
    var q, rem := n / d, n % d;
    assert n == q * d + rem;
    Distribute(q, d);
    Distribute(q + 1, d);
    if 2 * rem < d then q
    else if 2 * rem > d then q + 1
    else if q % 2 == 0 then q
    else q + 1
  }

  /** Multiplication distributes over the small sums `RoundHalfEven` needs. */
  lemma Distribute(r: int, d: int)
    ensures (2 * r + 1) * d == 2 * (r * d) + d
    ensures (2 * r - 1) * d == 2 * (r * d) - d
    ensures (r + 1) * d == r * d + d
  {
  }

  lemma PositiveProduct(k: int, d: nat)
    requires d > 0
    ensures k > 0 ==> k * d > 0
  {
  }

  lemma TimesCancel(a: int, b: int, d: nat)
    requires d > 0 && a * d <= b * d
    ensures a <= b
  {
    PositiveProduct(a - b, d);
    assert (a - b) * d == a * d - b * d;
  }

  /**
   * `round(meaningful / total * 100)`, or 0 without tokens, as an exact
   * quotient: a percentage from 0 to 100, 0 when nothing is meaningful and
   * 100 when everything is.
   */
  function FillingPercentage(tokens: seq<string>, stopWords: set<string>): (p: int)
    ensures 0 <= p <= 100
    ensures MeaningfulCount(tokens, stopWords) == 0 ==> p == 0
    ensures |tokens| > 0 && MeaningfulCount(tokens, stopWords) == |tokens| ==> p == 100
    ensures |tokens| == 0 ==> p == 0
    ensures |tokens| > 0 ==> var m := MeaningfulCount(tokens, stopWords);
              && (2 * p - 1) * |tokens| <= 200 * m <= (2 * p + 1) * |tokens|
              && (200 * m == (2 * p - 1) * |tokens| || 200 * m == (2 * p + 1) * |tokens| ==> p % 2 == 0)
  {
    var m, t := MeaningfulCount(tokens, stopWords), |tokens|;
    if t == 0 then 0
    else
      var r := RoundHalfEven(100 * m, t);
      assert (2 * r - 1) * t <= 200 * t by {
        assert 2 * (100 * m) <= 200 * t;
      }
      TimesCancel(2 * r - 1, 200, t);
      if m == 0 then
        TimesCancel(2 * r - 1, 0, t);
        r
      else if m == t then
        TimesCancel(199, 2 * r + 1, t);
        r
      else r
  }

  // ----- parse_resume -----

  /**
   * The dict `parse_resume` builds. The salary it finds goes under the key
   * "salary expectation", which `Resume` ignores, while "salary_expectation"
   * keeps its initial "".
   */
  datatype ParsedResume = ParsedResume(
    salaryExpectation: string,
    misspelledSalary: Option<string>,
    experience: seq<Experience>,
    fillingPercentage: int)

  /** The result of `parse_resume` on a page, or the error it raises. */
  function ParsedResumeOf(page: ResumePage, stopWords: set<string>): Result<ParsedResume, WorkUaError> {
    match SalaryOf(page.description)
    case Failure(e) => Failure(e)
    case Success(salary) =>
      var experience := if page.workExperience.Some? then Experiences(page.workExperience.value) else [];
      Success(ParsedResume("", salary, experience, FillingPercentage(page.tokens, stopWords)))
  }

  /** `parse_resume`: fills the dict, appending one experience entry per detailed heading. */
  method ParseResume(page: ResumePage, stopWords: set<string>) returns (r: Result<ParsedResume, WorkUaError>)
    ensures r == ParsedResumeOf(page, stopWords)
  {
    var misspelled: Option<string> := None;
    if page.description.Some? {
      var d := page.description.value;
      if Contains(d, SalaryMarker) {
        var word := FirstWord(LastPiece(d, SalaryMarker));
        if word.None? {
          return Failure(SalaryWordMissing);
        }
        misspelled := Some(Strip(word.value));
      }
    }
    var experience: seq<Experience> := [];
    if page.workExperience.Some? {
      var s := page.workExperience.value;
      var k := 0;
      while k < |s|
        invariant 0 <= k <= |s|
        invariant experience == EntriesBefore(s, k)
      {
        if s[k].PositionHeading? {
          var details := NextDetails(s, k + 1);
          if details.Some? {
            experience := experience + [MakeEntry(s[k].text, s[details.value])];
          }
        }
        k := k + 1;
      }
    }
    return Success(ParsedResume("", misspelled, experience, FillingPercentage(page.tokens, stopWords)));
  }

  /** The record `Resume(**{"href": ..., **resume})` builds from a parsed page. */
  function ToResume(href: string, p: ParsedResume): (r: Resume)
    ensures r.href == href && r.fillingPercentage == p.fillingPercentage
    ensures r.salaryExpectation == Some(p.salaryExpectation) && r.experience == Some(p.experience)
  {
    Resume(href, Some(p.salaryExpectation), Some(p.experience), p.fillingPercentage)
  }

  /**
   * As written, a salary found on the page never reaches the resume: the
   * parsed value sits under the misspelled key and the resume's salary is "".
   */
  lemma SalaryNeverReachesResume(page: ResumePage, stopWords: set<string>, href: string)
    requires ParsedResumeOf(page, stopWords).Success?
    ensures var p := ParsedResumeOf(page, stopWords).value;
            && p.misspelledSalary == SalaryOf(page.description).value
            && ToResume(href, p).salaryExpectation == Some("")
  {
  }

  /** The marker has spaces inside, so it cannot occur in a space followed by one word. */
  lemma MarkerNotInWord(w: string)
    requires forall k :: 0 <= k < |w| ==> !IsSpace(w[k])
    ensures !Contains(" " + w, SalaryMarker)
  {
    var rest := " " + w;
    forall i | 0 <= i <= |rest| ensures !OccursAt(rest, SalaryMarker, i) {
      if i + |SalaryMarker| <= |rest| {
        assert SalaryMarker[6] == ' ';
        assert rest[i..i + |SalaryMarker|][6] == rest[i + 6] == w[i + 5];
      }
    }
  }

  /** The word after "salary starting at " is the salary found. */
  lemma SalaryAfterMarker(w: string)
    requires w != [] && forall k :: 0 <= k < |w| ==> !IsSpace(w[k])
    ensures SalaryOf(Some(SalaryMarker + " " + w)) == Success(Some(w))
  {
    var rest := " " + w;
    var d := SalaryMarker + " " + w;
    assert d == SalaryMarker + rest;
    MarkerNotInWord(w);
    LastPieceAfterSeparator(SalaryMarker, rest);
    assert OccursAt(d, SalaryMarker, 0);
    FirstWordAfterSpace(w);
    StripTrimmed(w);
  }

  /** Whatever salary word follows the marker, it is found, yet the resume built from the page has none. */
  lemma SalaryLostExample(w: string)
    requires w != [] && forall k :: 0 <= k < |w| ==> !IsSpace(w[k])
    ensures var page := ResumePage(Some(SalaryMarker + " " + w), None, []);
            && ParsedResumeOf(page, {}).Success?
            && ParsedResumeOf(page, {}).value.misspelledSalary == Some(w)
            && ToResume("", ParsedResumeOf(page, {}).value).salaryExpectation == Some("")
  {
    SalaryAfterMarker(w);
  }

  /** `parse_resume` with the salary written under "salary_expectation", as intended. */
  function ParsedResumeCorrected(page: ResumePage, stopWords: set<string>): Result<ParsedResume, WorkUaError> {
    match ParsedResumeOf(page, stopWords)
    case Failure(e) => Failure(e)
    case Success(p) => Success(p.(salaryExpectation := p.misspelledSalary.GetOr("")))
  }

  /** With the key fixed, the resume carries the salary word from the Description tag. */
  lemma CorrectedKeepsSalary(page: ResumePage, stopWords: set<string>, href: string, w: string)
    requires SalaryOf(page.description) == Success(Some(w))
    ensures ParsedResumeCorrected(page, stopWords).Success?
    ensures ToResume(href, ParsedResumeCorrected(page, stopWords).value).salaryExpectation == Some(w)
    ensures w != "" && forall k :: 0 <= k < |w| ==> !IsSpace(w[k])
  {
  }

  // ----- search_resumes -----

  /** The resume links of the listing pages, page after page. */
  function ResumeLinks(io: ScrapeIo, pages: seq<string>): seq<string> {
    if pages == [] then [] else ResumeLinks(io, pages[..|pages| - 1]) + io.resumeLinks(pages[|pages| - 1])
  }

  /** The links of two runs of pages are the links of the first run, then those of the second. */
  lemma {:induction false} ResumeLinksConcat(io: ScrapeIo, a: seq<string>, b: seq<string>)
    ensures ResumeLinks(io, a + b) == ResumeLinks(io, a) + ResumeLinks(io, b)
    decreases |b|
  {
    if b != [] {
      var b' := b[..|b| - 1];
      assert (a + b)[..|a + b| - 1] == a + b';
      assert (a + b)[|a + b| - 1] == b[|b| - 1];
      ResumeLinksConcat(io, a, b');
    } else {
      assert a + b == a;
    }
  }

  /** `if resume_html:` keeps a response that came back and is not empty. */
  predicate Kept(response: Option<string>) {
    response.Some? && response.value != ""
  }

  /** The resume pages that came back, in link order; failed and empty responses are dropped. */
  function FetchedHtmls(io: ScrapeIo, hrefs: seq<string>): (r: seq<string>)
    ensures |r| <= |hrefs|
  {
    if hrefs == [] then []
    else
      var response := io.fetchResume(hrefs[|hrefs| - 1]);
      FetchedHtmls(io, hrefs[..|hrefs| - 1]) + if Kept(response) then [response.value] else []
  }

  /** The positions of the links whose page came back. */
  function KeptLinks(io: ScrapeIo, hrefs: seq<string>): (r: seq<nat>)
    ensures |r| <= |hrefs|
    ensures forall a :: 0 <= a < |r| ==> r[a] < |hrefs|
  {
    if hrefs == [] then []
    else
      var n := |hrefs| - 1;
      var p := KeptLinks(io, hrefs[..n]);
      if Kept(io.fetchResume(hrefs[n])) then p + [n] else p
  }

  /** Exactly the positions of the links whose page came back, in increasing order. */
  lemma {:induction false} KeptLinksFacts(io: ScrapeIo, hrefs: seq<string>)
    ensures forall i: nat :: i in KeptLinks(io, hrefs) <==> i < |hrefs| && Kept(io.fetchResume(hrefs[i]))
    ensures forall a, b :: 0 <= a < b < |KeptLinks(io, hrefs)| ==> KeptLinks(io, hrefs)[a] < KeptLinks(io, hrefs)[b]
  {
    if hrefs != [] {
      var n := |hrefs| - 1;
      KeptLinksFacts(io, hrefs[..n]);
      assert forall i :: 0 <= i < n ==> hrefs[..n][i] == hrefs[i];
    }
  }

  /** The j-th fetched page is the page of the j-th link that came back. */
  lemma {:induction false} FetchedHtmlsFromKeptLinks(io: ScrapeIo, hrefs: seq<string>)
    ensures |FetchedHtmls(io, hrefs)| == |KeptLinks(io, hrefs)|
    ensures forall j :: 0 <= j < |KeptLinks(io, hrefs)| ==>
              && Kept(io.fetchResume(hrefs[KeptLinks(io, hrefs)[j]]))
              && Some(FetchedHtmls(io, hrefs)[j]) == io.fetchResume(hrefs[KeptLinks(io, hrefs)[j]])
  {
    if hrefs != [] {
      var n := |hrefs| - 1;
      var ks, hs := KeptLinks(io, hrefs[..n]), FetchedHtmls(io, hrefs[..n]);
      FetchedHtmlsFromKeptLinks(io, hrefs[..n]);
      var k, f := KeptLinks(io, hrefs), FetchedHtmls(io, hrefs);
      forall j | 0 <= j < |k|
        ensures Kept(io.fetchResume(hrefs[k[j]])) && Some(f[j]) == io.fetchResume(hrefs[k[j]])
      {
        if j < |ks| {
          assert k[j] == ks[j] && f[j] == hs[j];
          assert hrefs[..n][ks[j]] == hrefs[ks[j]];
        }
      }
    }
  }

  /** `parse_resume` on a fetched page. */
  function ParseStep(io: ScrapeIo): string -> Result<ParsedResume, WorkUaError> {
    html => ParsedResumeOf(io.resumePage(html), io.stopWords)
  }

  /** `parse_resume` on a fetched page, with the salary under its intended key. */
  function CorrectedParseStep(io: ScrapeIo): string -> Result<ParsedResume, WorkUaError> {
    html => ParsedResumeCorrected(io.resumePage(html), io.stopWords)
  }

  /** The j-th parsed page gets the j-th link: `base_url + hrefs[i - 1]` with `i` counting parsed pages. */
  function WithLinks(baseUrl: string, hrefs: seq<string>, parsed: seq<ParsedResume>): (r: seq<Resume>)
    requires |parsed| <= |hrefs|
    ensures |r| == |parsed|
    ensures forall j :: 0 <= j < |r| ==> r[j] == ToResume(baseUrl + hrefs[j], parsed[j])
  {
    seq(|parsed|, j requires 0 <= j < |parsed| => ToResume(baseUrl + hrefs[j], parsed[j]))
  }

  lemma WithLinksSnoc(baseUrl: string, hrefs: seq<string>, parsed: seq<ParsedResume>, p: ParsedResume)
    requires |parsed| < |hrefs|
    ensures WithLinks(baseUrl, hrefs, parsed + [p]) == WithLinks(baseUrl, hrefs, parsed) + [ToResume(baseUrl + hrefs[|parsed|], p)]
  {
  }

  /** What the three loops of `search_resumes` produce from the links, as written. */
  function ResumesFromLinks(baseUrl: string, io: ScrapeIo, hrefs: seq<string>): Result<seq<Resume>, WorkUaError> {
    var htmls := FetchedHtmls(io, hrefs);
    var parsed := TryMap(htmls, ParseStep(io));
    TryMapSuccess(htmls, ParseStep(io));
    if parsed.Failure? then Failure(parsed.error) else Success(WithLinks(baseUrl, hrefs, parsed.value))
  }

  /**
   * `search_resumes`, from the search options to the parsed resumes or the
   * error raised, with the two corrections of the pipeline: each resume
   * keeps the link its page came from, and the salary found reaches it.
   */
  function SearchResumesOf(cfg: Config, io: ScrapeIo, params: SearchOptions): Result<seq<Resume>, WorkUaError> {
    match SearchPayload(cfg, params)
    case Failure(e) => Failure(e)
    case Success(payload) =>
      match ResumePages(io, payload)
      case Failure(e) => Failure(e)
      case Success(pages) => AlignedResumesFromLinks(cfg.baseUrl, CorrectedParseStep(io), io, ResumeLinks(io, pages))
  }

  /**
   * `search_resumes`: the payload, the listing pages, then the three loops
   * over pages, links and resume pages; the fetch loop also records which
   * links came back.
   */
  method SearchResumes(cfg: Config, io: ScrapeIo, params: SearchOptions) returns (r: Result<seq<Resume>, WorkUaError>)
    ensures r == SearchResumesOf(cfg, io, params)
  {
    var payload := UnpackSearchOptions(cfg, params);
    if payload.Failure? {
      return Failure(payload.error);
    }
    var pageHtmls := GetResumePages(io, payload.value);
    if pageHtmls.Failure? {
      return Failure(pageHtmls.error);
    }
    var hrefs := CollectLinks(io, pageHtmls.value);
    var resumeHtmls, kept := FetchAll(io, hrefs);
    r := ParseAll(cfg.baseUrl, io, hrefs, kept, resumeHtmls);
  }

  /** The first loop of `search_resumes`: the resume links of every listing page. */
  method CollectLinks(io: ScrapeIo, pages: seq<string>) returns (hrefs: seq<string>)
    ensures hrefs == ResumeLinks(io, pages)
  {
    hrefs := [];
    var k := 0;
    while k < |pages|
      invariant 0 <= k <= |pages|
      invariant hrefs == ResumeLinks(io, pages[..k])
    {
      assert pages[..k + 1][..k] == pages[..k];
      hrefs := hrefs + io.resumeLinks(pages[k]);
      k := k + 1;
    }
    assert pages[..k] == pages;
  }

  /**
   * The second loop of `search_resumes`: fetch every resume page and keep
   * those that came back non-empty, recording where each came from.
   */
  method FetchAll(io: ScrapeIo, hrefs: seq<string>) returns (htmls: seq<string>, kept: seq<nat>)
    ensures htmls == FetchedHtmls(io, hrefs)
    ensures kept == KeptLinks(io, hrefs)
  {
    htmls, kept := [], [];
    var k := 0;
    while k < |hrefs|
      invariant 0 <= k <= |hrefs|
      invariant htmls == FetchedHtmls(io, hrefs[..k])
      invariant kept == KeptLinks(io, hrefs[..k])
    {
      assert hrefs[..k + 1][..k] == hrefs[..k];
      var resumeHtml := io.fetchResume(hrefs[k]);
      if Kept(resumeHtml) {
        htmls := htmls + [resumeHtml.value];
        kept := kept + [k];
      }
      k := k + 1;
    }
    assert hrefs[..k] == hrefs;
  }

  /** `parse_resume` on one fetched page, with the salary put under its intended key. */
  method ParsePage(io: ScrapeIo, html: string) returns (r: Result<ParsedResume, WorkUaError>)
    ensures r == CorrectedParseStep(io)(html)
  {
    r := ParseResume(io.resumePage(html), io.stopWords);
    if r.Success? {
      r := Success(r.value.(salaryExpectation := r.value.misspelledSalary.GetOr("")));
    }
  }

  /**
   * The last loop of `search_resumes`: parse each fetched page, put the
   * salary under its intended key and attach the link the page came from.
   */
  method ParseAll(baseUrl: string, io: ScrapeIo, hrefs: seq<string>, kept: seq<nat>, htmls: seq<string>)
    returns (r: Result<seq<Resume>, WorkUaError>)
    requires kept == KeptLinks(io, hrefs) && htmls == FetchedHtmls(io, hrefs)
    ensures r == AlignedResumesFromLinks(baseUrl, CorrectedParseStep(io), io, hrefs)
  {
    FetchedHtmlsFromKeptLinks(io, hrefs);
    var resumes: seq<Resume> := [];
    ghost var parsed: seq<ParsedResume> := [];
    var i := 0;
    while i < |htmls|
      invariant 0 <= i <= |htmls| == |kept|
      invariant TryMap(htmls[..i], CorrectedParseStep(io)) == Success(parsed)
      invariant |parsed| == i
      invariant resumes == WithKeptLinks(baseUrl, hrefs, kept[..i], parsed)
    {
      var resume := ParsePage(io, htmls[i]);
      ParseAllStep(baseUrl, CorrectedParseStep(io), hrefs, kept, htmls, parsed);
      if resume.Failure? {
        return Failure(resume.error);
      }
      resumes := resumes + [ToResume(baseUrl + hrefs[kept[i]], resume.value)];
      parsed := parsed + [resume.value];
      i := i + 1;
    }
    assert htmls[..i] == htmls;
    assert kept[..i] == kept;
    return Success(resumes);
  }

  /** One turn of the last loop, for any way of parsing a page. */
  lemma ParseAllStep(baseUrl: string, parse: string -> Result<ParsedResume, WorkUaError>, hrefs: seq<string>,
                     kept: seq<nat>, htmls: seq<string>, parsed: seq<ParsedResume>)
    requires |parsed| < |htmls| == |kept| && forall j :: 0 <= j < |kept| ==> kept[j] < |hrefs|
    requires TryMap(htmls[..|parsed|], parse) == Success(parsed)
    ensures var i := |parsed|;
            var res := parse(htmls[i]);
            && (res.Failure? ==> TryMap(htmls, parse) == Failure(res.error))
            && (res.Success? ==>
                  && TryMap(htmls[..i + 1], parse) == Success(parsed + [res.value])
                  && WithKeptLinks(baseUrl, hrefs, kept[..i + 1], parsed + [res.value]) ==
                       WithKeptLinks(baseUrl, hrefs, kept[..i], parsed) + [ToResume(baseUrl + hrefs[kept[i]], res.value)])
  {
    var i := |parsed|;
    TryMapStep(htmls, i, parse, parsed);
    if parse(htmls[i]).Success? {
      WithKeptLinksSnoc(baseUrl, hrefs, kept, parsed, parse(htmls[i]).value);
    }
  }

  /**
   * What the pipeline promises: one resume per page that came back, the
   * j-th carrying the j-th link, each parsed from the j-th page that came
   * back — which was fetched from the link at position `KeptLinks[j]`.
   */
  lemma ResumesFromLinksFacts(baseUrl: string, io: ScrapeIo, hrefs: seq<string>)
    requires ResumesFromLinks(baseUrl, io, hrefs).Success?
    ensures var rs := ResumesFromLinks(baseUrl, io, hrefs).value;
            var kept := KeptLinks(io, hrefs);
            && |rs| == |kept| <= |hrefs|
            && forall j :: 0 <= j < |rs| ==>
                 && rs[j].href == baseUrl + hrefs[j]
                 && Kept(io.fetchResume(hrefs[kept[j]]))
                 && var parsed := ParseStep(io)(io.fetchResume(hrefs[kept[j]]).value);
                    parsed.Success? && rs[j] == ToResume(baseUrl + hrefs[j], parsed.value)
  {
    var htmls := FetchedHtmls(io, hrefs);
    TryMapSuccess(htmls, ParseStep(io));
    FetchedHtmlsFromKeptLinks(io, hrefs);
    var kept := KeptLinks(io, hrefs);
    assert |kept| <= |hrefs| by { KeptLinksBound(io, hrefs); }
  }

  lemma KeptLinksBound(io: ScrapeIo, hrefs: seq<string>)
    ensures |KeptLinks(io, hrefs)| <= |hrefs|
  {
    FetchedHtmlsFromKeptLinks(io, hrefs);
  }

  // ----- a link that failed shifts the links of the later resumes -----

  /**
   * As written, when a resume page fails to come back every later resume
   * gets the link before its own: here the only resume parsed was fetched
   * from the second link but carries the first.
   */
  lemma MisalignedLinkExample(baseUrl: string)
    ensures var hrefs := ["/resumes/1/", "/resumes/2/"];
            var io := ExampleIo(hrefs[1]);
            var rs := ResumesFromLinks(baseUrl, io, hrefs);
            && io.fetchResume(hrefs[0]) == None
            && Kept(io.fetchResume(hrefs[1]))
            && rs.Success? && |rs.value| == 1
            && rs.value[0].href == baseUrl + hrefs[0]
  {
    var hrefs := ["/resumes/1/", "/resumes/2/"];
    var io := ExampleIo(hrefs[1]);
    assert hrefs[0] != hrefs[1] by { assert hrefs[0][9] != hrefs[1][9]; }
    assert hrefs[..1] == [hrefs[0]];
    assert FetchedHtmls(io, hrefs[..1]) == [] by {
      assert hrefs[..1][..0] == [];
    }
    assert FetchedHtmls(io, hrefs) == ["page"];
    assert ["page"][1..] == [];
    assert TryMap(["page"], ParseStep(io)).Success?;
  }

  /** One page that comes back, from the link `good`, and nothing on it. */
  function ExampleIo(good: string): ScrapeIo {
    ScrapeIo(
      (p: Payload) => None,
      (t: string) => t,
      (t: string) => [],
      (h: string) => if h == good then Some("page") else None,
      (t: string) => ResumePage(None, None, []),
      {})
  }

  /** The pipeline with each page, parsed by `parse`, given the link it was fetched from, as intended. */
  function AlignedResumesFromLinks(baseUrl: string, parse: string -> Result<ParsedResume, WorkUaError>, io: ScrapeIo, hrefs: seq<string>)
    : Result<seq<Resume>, WorkUaError>
  {
    var kept := KeptLinks(io, hrefs);
    var htmls := FetchedHtmls(io, hrefs);
    var parsed := TryMap(htmls, parse);
    TryMapSuccess(htmls, parse);
    FetchedHtmlsFromKeptLinks(io, hrefs);
    if parsed.Failure? then Failure(parsed.error) else Success(WithKeptLinks(baseUrl, hrefs, kept, parsed.value))
  }

  /** Each parsed page with the link at its position among the links that came back. */
  function WithKeptLinks(baseUrl: string, hrefs: seq<string>, kept: seq<nat>, parsed: seq<ParsedResume>): (r: seq<Resume>)
    requires |parsed| == |kept| && forall j :: 0 <= j < |kept| ==> kept[j] < |hrefs|
    ensures |r| == |parsed|
    ensures forall j :: 0 <= j < |r| ==> r[j] == ToResume(baseUrl + hrefs[kept[j]], parsed[j])
  {
    seq(|parsed|, j requires 0 <= j < |parsed| => ToResume(baseUrl + hrefs[kept[j]], parsed[j]))
  }

  lemma WithKeptLinksSnoc(baseUrl: string, hrefs: seq<string>, kept: seq<nat>, parsed: seq<ParsedResume>, p: ParsedResume)
    requires |parsed| < |kept| && forall j :: 0 <= j < |kept| ==> kept[j] < |hrefs|
    ensures var i := |parsed|;
            WithKeptLinks(baseUrl, hrefs, kept[..i + 1], parsed + [p]) ==
              WithKeptLinks(baseUrl, hrefs, kept[..i], parsed) + [ToResume(baseUrl + hrefs[kept[i]], p)]
  {
  }

  /** With the links aligned, every resume carries the link its page was fetched from. */
  lemma AlignedResumesCarryTheirLink(baseUrl: string, parse: string -> Result<ParsedResume, WorkUaError>, io: ScrapeIo, hrefs: seq<string>)
    requires AlignedResumesFromLinks(baseUrl, parse, io, hrefs).Success?
    ensures var rs := AlignedResumesFromLinks(baseUrl, parse, io, hrefs).value;
            var kept := KeptLinks(io, hrefs);
            && |rs| == |kept|
            && forall j :: 0 <= j < |rs| ==>
                 && Kept(io.fetchResume(hrefs[kept[j]]))
                 && var parsed := parse(io.fetchResume(hrefs[kept[j]]).value);
                    parsed.Success? && rs[j] == ToResume(baseUrl + hrefs[kept[j]], parsed.value)
  {
    var htmls := FetchedHtmls(io, hrefs);
    TryMapSuccess(htmls, parse);
    FetchedHtmlsFromKeptLinks(io, hrefs);
  }

  /** In the example the aligned pipeline gives the resume the second link, where its page came from. */
  lemma AlignedLinkExample(baseUrl: string)
    ensures var hrefs := ["/resumes/1/", "/resumes/2/"];
            var rs := AlignedResumesFromLinks(baseUrl, CorrectedParseStep(ExampleIo(hrefs[1])), ExampleIo(hrefs[1]), hrefs);
            rs.Success? && |rs.value| == 1 && rs.value[0].href == baseUrl + hrefs[1]
  {
    var hrefs := ["/resumes/1/", "/resumes/2/"];
    var io := ExampleIo(hrefs[1]);
    assert hrefs[0] != hrefs[1] by { assert hrefs[0][9] != hrefs[1][9]; }
    assert hrefs[..1] == [hrefs[0]];
    assert hrefs[..1][..0] == [];
    assert KeptLinks(io, hrefs[..1]) == [];
    assert KeptLinks(io, hrefs) == [1];
    assert FetchedHtmls(io, hrefs[..1]) == [];
    assert FetchedHtmls(io, hrefs) == ["page"];
    assert ["page"][1..] == [];
    assert TryMap(["page"], CorrectedParseStep(io)).Success?;
  }

  /**
   * The pipeline the search uses: each resume carries the link its page came
   * from, the salary word found on that page ("" without one) and that
   * page's filling percentage.
   */
  lemma CorrectedPipelineFacts(baseUrl: string, io: ScrapeIo, hrefs: seq<string>)
    requires AlignedResumesFromLinks(baseUrl, CorrectedParseStep(io), io, hrefs).Success?
    ensures var rs := AlignedResumesFromLinks(baseUrl, CorrectedParseStep(io), io, hrefs).value;
            var kept := KeptLinks(io, hrefs);
            && |rs| == |kept|
            && forall j :: 0 <= j < |rs| ==>
                 && Kept(io.fetchResume(hrefs[kept[j]]))
                 && var page := io.resumePage(io.fetchResume(hrefs[kept[j]]).value);
                    && rs[j].href == baseUrl + hrefs[kept[j]]
                    && SalaryOf(page.description).Success?
                    && rs[j].salaryExpectation == Some(SalaryOf(page.description).value.GetOr(""))
                    && rs[j].fillingPercentage == FillingPercentage(page.tokens, io.stopWords)
  {
    AlignedResumesCarryTheirLink(baseUrl, CorrectedParseStep(io), io, hrefs);
  }

  lemma {:induction false} KeptLinksAll(io: ScrapeIo, hrefs: seq<string>)
    requires forall i :: 0 <= i < |hrefs| ==> Kept(io.fetchResume(hrefs[i]))
    ensures KeptLinks(io, hrefs) == seq(|hrefs|, i => i)
  {
    if hrefs != [] {
      var n := |hrefs| - 1;
      assert forall i :: 0 <= i < n ==> hrefs[..n][i] == hrefs[i];
      KeptLinksAll(io, hrefs[..n]);
    }
  }

  /** The two pipelines agree when no resume page is dropped: the misalignment needs a failed fetch. */
  lemma AlignedWhenNothingDropped(baseUrl: string, io: ScrapeIo, hrefs: seq<string>)
    requires forall i :: 0 <= i < |hrefs| ==> Kept(io.fetchResume(hrefs[i]))
    ensures ResumesFromLinks(baseUrl, io, hrefs) == AlignedResumesFromLinks(baseUrl, ParseStep(io), io, hrefs)
  {
    KeptLinksAll(io, hrefs);
    var htmls := FetchedHtmls(io, hrefs);
    TryMapSuccess(htmls, ParseStep(io));
    FetchedHtmlsFromKeptLinks(io, hrefs);
    var parsed := TryMap(htmls, ParseStep(io));
    if parsed.Success? {
      WithKeptLinksInOrder(baseUrl, hrefs, KeptLinks(io, hrefs), parsed.value);
    }
  }

  lemma WithKeptLinksInOrder(baseUrl: string, hrefs: seq<string>, kept: seq<nat>, parsed: seq<ParsedResume>)
    requires |parsed| == |kept| == |hrefs| && kept == seq(|hrefs|, i => i)
    ensures WithKeptLinks(baseUrl, hrefs, kept, parsed) == WithLinks(baseUrl, hrefs, parsed)
  {
  }
}
