/**
 * The Telegram bot: a table of chat sessions, each holding the dialogue
 * state and the search options collected so far, updated by the command and
 * callback handlers; the search that ranks the results of both parsers; and
 * the text each resume is shown as. Sending messages and keyboards is not
 * modelled; each handler is its effect on the session table.
 */
module TelegramBot {
  import opened Wrappers
  import opened Text
  import opened Dicts
  import opened Models
  import opened Ranking
  import WorkUa
  import RobotaUa

  /** A salary bound as a session stores it: a number, or the blank `""` that `clear` puts there. */
  datatype SalaryValue = Amount(n: int) | Blank

  /** The `search_options` dict of a chat. */
  datatype SessionOptions = SessionOptions(
    search: string,
    region: string,
    salaryFrom: SalaryValue,
    salaryTo: SalaryValue,
    experience: seq<string>)

  /** The entry of a chat in the bot's `__user_data`. */
  datatype ChatSession = ChatSession(state: UserState, options: SessionOptions)

  type Sessions = map<int, ChatSession>

  /** What a handler can raise. */
  datatype BotError =
    | ChatMissing(chat: int)
    | OptionMissing(data: string)
    | ValueError(text: string)
    | ValidationError(field: string)
    | WorkUaFailed(workError: WorkUa.WorkUaError)
    | RobotaUaFailed(robotaError: RobotaUa.RobotaError)
    | RobotaUaNoResults

  const CompleteData: string := "experience_complete"
  const ResetData: string := "experience_reset"
  const SalaryFromPrefix: string := "salary_from:"
  const SalaryToPrefix: string := "salary_to:"

  // ----- starting, clearing and stopping a chat -----

  /** The options `start` stores: empty texts, zero salaries, no experience. */
  const StartOptions: SessionOptions := SessionOptions("", "", Amount(0), Amount(0), [])

  /** The options `clear` stores: as `start`, but with `""` for the salaries. */
  const ClearOptions: SessionOptions := SessionOptions("", "", Blank, Blank, [])

  /** The table after `start` in `chat`: the chat is reset, every other chat is untouched. */
  function Started(s: Sessions, chat: int): (r: Sessions)
    ensures r.Keys == s.Keys + {chat}
    ensures r[chat].state == Free && r[chat].options.search == "" && r[chat].options.region == ""
    ensures r[chat].options.salaryFrom == Amount(0) && r[chat].options.salaryTo == Amount(0)
    ensures r[chat].options.experience == []
    ensures forall c :: c in s && c != chat ==> r[c] == s[c]
  {
    s[chat := ChatSession(Free, StartOptions)]
  }

  /** The table after `clear` in `chat`: as after `start`, except that both salaries are blank. */
  function Cleared(s: Sessions, chat: int): (r: Sessions)
    ensures r.Keys == s.Keys + {chat}
    ensures r[chat].state == Free && r[chat].options.search == "" && r[chat].options.region == ""
    ensures r[chat].options.salaryFrom == Blank && r[chat].options.salaryTo == Blank
    ensures r[chat].options.experience == []
    ensures forall c :: c in s && c != chat ==> r[c] == s[c]
  {
    s[chat := ChatSession(Free, ClearOptions)]
  }

  /** `stop`: the chat's entry is popped; popping a chat that is not there raises KeyError. */
  function Stopped(s: Sessions, chat: int): (r: Result<Sessions, BotError>)
    ensures r.Failure? <==> chat !in s
    ensures r.Failure? ==> r.error == ChatMissing(chat)
    ensures r.Success? ==> r.value.Keys == s.Keys - {chat} && forall c :: c in r.value ==> r.value[c] == s[c]
  {
    if chat !in s then Failure(ChatMissing(chat)) else Success(map c | c in s && c != chat :: s[c])
  }

  /** Stopping a chat that was just started gives back the table without that chat. */
  lemma StopUndoesStart(s: Sessions, chat: int)
    ensures Stopped(Started(s, chat), chat) == Success(s - {chat})
  {
    var t := Started(s, chat);
    var r := map c | c in t && c != chat :: t[c];
    assert Stopped(t, chat) == Success(r);
    assert r.Keys == (s - {chat}).Keys;
    forall c | c in r ensures r[c] == (s - {chat})[c] {
      assert c != chat;
    }
    assert r == s - {chat};
  }

  /** `start` and `clear` leave a chat in the same state except for the two salary bounds. */
  lemma StartAndClearDiffer(s: Sessions, chat: int)
    ensures Started(s, chat)[chat].options.(salaryFrom := Blank, salaryTo := Blank) == Cleared(s, chat)[chat].options
    ensures Started(s, chat)[chat].options != Cleared(s, chat)[chat].options
    ensures forall c :: c in s && c != chat ==> Started(s, chat)[c] == Cleared(s, chat)[c]
  {
  }

  // ----- typed parameters -----

  /**
   * `accept_parameter`: in a chat that was never started nothing changes;
   * otherwise the text becomes the search query when the bot asked for
   * keywords, the region when it asked for a region, and in every case the
   * chat ends up FREE.
   */
  function Accepted(s: Sessions, chat: int, text: string): (r: Sessions)
    ensures chat !in s ==> r == s
    ensures r.Keys == s.Keys
    ensures forall c :: c in s && c != chat ==> r[c] == s[c]
    ensures chat in s ==>
              var before := s[chat].options;
              var after := r[chat].options;
              && r[chat].state == Free
              && after.search == (if s[chat].state == AskingKeywords then text else before.search)
              && after.region == (if s[chat].state == AskingRegion then text else before.region)
              && after.(search := before.search, region := before.region) == before
  {
    if chat !in s then s
    else
      var session := s[chat];
      var o := session.options;
      var o' := if session.state == AskingKeywords then o.(search := text)
                else if session.state == AskingRegion then o.(region := text)
                else o;
      s[chat := ChatSession(Free, o')]
  }

  /** A typed text is taken at most once: a second text right after it changes nothing. */
  lemma AcceptedOnce(s: Sessions, chat: int, text: string, text': string)
    ensures Accepted(Accepted(s, chat, text), chat, text') == Accepted(s, chat, text)
  {
    var r := Accepted(s, chat, text);
    if chat in s {
      assert r[chat := ChatSession(Free, r[chat].options)] == r;
    }
  }

  /**
   * `set_parameter`: `/keywords` and `/region` make the chat wait for that
   * parameter (a chat that was never started raises KeyError); any other
   * text changes nothing.
   */
  function ParameterRequested(s: Sessions, chat: int, text: string): (r: Result<Sessions, BotError>)
    ensures r.Failure? <==> (StartsWith(text, "/keywords") || StartsWith(text, "/region")) && chat !in s
    ensures r.Failure? ==> r.error == ChatMissing(chat)
    ensures r.Success? && chat in s ==>
              && r.value.Keys == s.Keys
              && (forall c :: c in s && c != chat ==> r.value[c] == s[c])
              && r.value[chat].options == s[chat].options
              && r.value[chat].state ==
                   if StartsWith(text, "/keywords") then AskingKeywords
                   else if StartsWith(text, "/region") then AskingRegion
                   else s[chat].state
    ensures r.Success? && chat !in s ==> r.value == s
  {
    if StartsWith(text, "/keywords") then
      if chat !in s then Failure(ChatMissing(chat)) else Success(s[chat := s[chat].(state := AskingKeywords)])
    else if StartsWith(text, "/region") then
      if chat !in s then Failure(ChatMissing(chat)) else Success(s[chat := s[chat].(state := AskingRegion)])
    else Success(s)
  }

  /** `/keywords` followed by a text sets the search query to that text and nothing else. */
  lemma KeywordsDialogue(s: Sessions, chat: int, command: string, text: string)
    requires chat in s && StartsWith(command, "/keywords")
    ensures var r := Accepted(ParameterRequested(s, chat, command).value, chat, text);
            && r.Keys == s.Keys
            && r[chat] == ChatSession(Free, s[chat].options.(search := text))
            && forall c :: c in s && c != chat ==> r[c] == s[c]
  {
  }

  /** `/region` followed by a text sets the region to that text and nothing else. */
  lemma RegionDialogue(s: Sessions, chat: int, command: string, text: string)
    requires chat in s && StartsWith(command, "/region") && !StartsWith(command, "/keywords")
    ensures var r := Accepted(ParameterRequested(s, chat, command).value, chat, text);
            && r.Keys == s.Keys
            && r[chat] == ChatSession(Free, s[chat].options.(region := text))
            && forall c :: c in s && c != chat ==> r[c] == s[c]
  {
  }

  /** The `experience` and `salary` commands: the chat waits for that parameter; an unknown chat raises KeyError. */
  function Prompted(s: Sessions, chat: int, state: UserState): (r: Result<Sessions, BotError>)
    ensures r.Failure? <==> chat !in s
    ensures r.Failure? ==> r.error == ChatMissing(chat)
    ensures r.Success? ==>
              && r.value.Keys == s.Keys
              && r.value[chat] == ChatSession(state, s[chat].options)
              && forall c :: c in s && c != chat ==> r.value[c] == s[c]
  {
    if chat !in s then Failure(ChatMissing(chat)) else Success(s[chat := s[chat].(state := state)])
  }

  // ----- the salary buttons -----

  /** The text before the first `:` of `s`, or all of `s`. */
  function UpToColon(s: string): (r: string)
    ensures |r| <= |s| && r == s[..|r|]
    ensures ':' !in r
    ensures |r| < |s| ==> s[|r|] == ':'
  {
    if s == [] || s[0] == ':' then [] else [s[0]] + UpToColon(s[1..])
  }

  /**
   * `data.split(":")[1]` for callback data that starts with `prefix`, a
   * prefix whose only `:` is its last character.
   */
  function SalaryField(data: string, prefix: string): (r: string)
    requires StartsWith(data, prefix)
    ensures |prefix| + |r| <= |data| && r == data[|prefix|..|prefix| + |r|]
    ensures ':' !in r
    ensures |prefix| + |r| < |data| ==> data[|prefix| + |r|] == ':'
  {
    UpToColon(data[|prefix|..])
  }

  /**
   * `salary_callback`: `salary_from:N` stores N as the lower bound and asks
   * for the upper one; `salary_to:N` stores N as the upper bound and frees
   * the chat. A field `int()` cannot read raises ValueError (before the chat
   * is looked up); other data changes nothing.
   */
  function SalaryChosen(s: Sessions, chat: int, data: string): (r: Result<Sessions, BotError>)
    ensures !StartsWith(data, SalaryFromPrefix) && !StartsWith(data, SalaryToPrefix) ==> r == Success(s)
    ensures StartsWith(data, SalaryFromPrefix) ==>
              var n := ParseInt(SalaryField(data, SalaryFromPrefix));
              && (n.None? ==> r == Failure(ValueError(SalaryField(data, SalaryFromPrefix))))
              && (n.Some? && chat !in s ==> r == Failure(ChatMissing(chat)))
              && (n.Some? && chat in s ==>
                    r == Success(s[chat := ChatSession(AskingSalaryTo, s[chat].options.(salaryFrom := Amount(n.value)))]))
    ensures !StartsWith(data, SalaryFromPrefix) && StartsWith(data, SalaryToPrefix) ==>
              var n := ParseInt(SalaryField(data, SalaryToPrefix));
              && (n.None? ==> r == Failure(ValueError(SalaryField(data, SalaryToPrefix))))
              && (n.Some? && chat !in s ==> r == Failure(ChatMissing(chat)))
              && (n.Some? && chat in s ==>
                    r == Success(s[chat := ChatSession(Free, s[chat].options.(salaryTo := Amount(n.value)))]))
  {
    if StartsWith(data, SalaryFromPrefix) then
      var field := SalaryField(data, SalaryFromPrefix);
      match ParseInt(field)
      case None => Failure(ValueError(field))
      case Some(n) =>
        if chat !in s then Failure(ChatMissing(chat))
        else Success(s[chat := ChatSession(AskingSalaryTo, s[chat].options.(salaryFrom := Amount(n)))])
    else if StartsWith(data, SalaryToPrefix) then
      var field := SalaryField(data, SalaryToPrefix);
      match ParseInt(field)
      case None => Failure(ValueError(field))
      case Some(n) =>
        if chat !in s then Failure(ChatMissing(chat))
        else Success(s[chat := ChatSession(Free, s[chat].options.(salaryTo := Amount(n)))])
    else Success(s)
  }

  /** The field after a button's prefix is the value the button was built with (`f"salary_from:{value}"`). */
  lemma SalaryFieldOfButton(prefix: string, value: int)
    ensures StartsWith(prefix + IntToString(value), prefix)
    ensures SalaryField(prefix + IntToString(value), prefix) == IntToString(value)
  {
    var data := prefix + IntToString(value);
    assert data[..|prefix|] == prefix;
    assert data[|prefix|..] == IntToString(value);
    UpToColonWithoutColon(IntToString(value));
  }

  lemma {:induction false} UpToColonWithoutColon(s: string)
    requires ':' !in s
    ensures UpToColon(s) == s
  {
    if s != [] {
      assert ':' !in s[1..] by { assert forall k :: 0 <= k < |s[1..]| ==> s[1..][k] == s[k + 1]; }
      UpToColonWithoutColon(s[1..]);
    }
  }

  /** `salary_to:` buttons are not `salary_from:` buttons. */
  lemma ToButtonIsNotFromButton(value: int)
    ensures !StartsWith(SalaryToPrefix + IntToString(value), SalaryFromPrefix)
  {
    var d := SalaryToPrefix + IntToString(value);
    assert d[7] == SalaryToPrefix[7];
  }

  /** The button for `lo` stores the lower bound `lo` and asks for the upper one. */
  lemma FromButtonPressed(s: Sessions, chat: int, lo: int)
    requires chat in s
    ensures SalaryChosen(s, chat, SalaryFromPrefix + IntToString(lo)) ==
              Success(s[chat := ChatSession(AskingSalaryTo, s[chat].options.(salaryFrom := Amount(lo)))])
  {
    SalaryFieldOfButton(SalaryFromPrefix, lo);
    ParseIntRoundTrip(lo);
  }

  /** The button for `hi` stores the upper bound `hi` and frees the chat. */
  lemma ToButtonPressed(s: Sessions, chat: int, hi: int)
    requires chat in s
    ensures SalaryChosen(s, chat, SalaryToPrefix + IntToString(hi)) ==
              Success(s[chat := ChatSession(Free, s[chat].options.(salaryTo := Amount(hi)))])
  {
    ToButtonIsNotFromButton(hi);
    SalaryFieldOfButton(SalaryToPrefix, hi);
    ParseIntRoundTrip(hi);
  }

  /**
   * Pressing the buttons for `lo` and then `hi` stores both bounds and frees
   * the chat, whatever the chat was doing before.
   */
  lemma SalaryDialogue(s: Sessions, chat: int, lo: int, hi: int)
    requires chat in s
    ensures var r := SalaryChosen(s, chat, SalaryFromPrefix + IntToString(lo));
            && r.Success? && r.value[chat].state == AskingSalaryTo
            && var r' := SalaryChosen(r.value, chat, SalaryToPrefix + IntToString(hi));
               && r'.Success?
               && r'.value.Keys == s.Keys
               && r'.value[chat] == ChatSession(Free, s[chat].options.(salaryFrom := Amount(lo), salaryTo := Amount(hi)))
               && forall c :: c in s && c != chat ==> r'.value[c] == s[c]
  {
    FromButtonPressed(s, chat, lo);
    var mid := SalaryChosen(s, chat, SalaryFromPrefix + IntToString(lo)).value;
    ToButtonPressed(mid, chat, hi);
  }

  // ----- the experience buttons -----

  /** No label is selected twice. */
  predicate Distinct(xs: seq<string>) {
    forall i, j :: 0 <= i < j < |xs| ==> xs[i] != xs[j]
  }

  /** `xs.remove(x)`: the first occurrence of `x` is deleted. */
  function RemoveFirst(xs: seq<string>, x: string): (r: seq<string>)
    requires x in xs
    ensures |r| == |xs| - 1
    ensures multiset(r) == multiset(xs) - multiset{x}
  {
    assert xs == [xs[0]] + xs[1..];
    if xs[0] == x then xs[1..] else [xs[0]] + RemoveFirst(xs[1..], x)
  }

  /** Removing deletes the first occurrence and keeps the rest in order. */
  lemma {:induction false} RemoveFirstAt(xs: seq<string>, x: string, i: nat)
    requires i < |xs| && xs[i] == x && x !in xs[..i]
    ensures RemoveFirst(xs, x) == xs[..i] + xs[i + 1..]
  {
    if i > 0 {
      assert xs[0] in xs[..i];
      assert xs[1..][i - 1] == x && xs[1..][..i - 1] == xs[1..i];
      calc {
        RemoveFirst(xs, x);
        [xs[0]] + RemoveFirst(xs[1..], x);
        { RemoveFirstAt(xs[1..], x, i - 1); }
        [xs[0]] + (xs[1..][..i - 1] + xs[1..][i..]);
        { assert xs[1..][i..] == xs[i + 1..]; }
        [xs[0]] + (xs[1..i] + xs[i + 1..]);
        { assert [xs[0]] + xs[1..i] == xs[..i]; }
        xs[..i] + xs[i + 1..];
      }
    }
  }

  /** A selected option is deselected, any other option is appended. */
  function Toggle(xs: seq<string>, x: string): (r: seq<string>)
    ensures x !in xs ==> r == xs + [x]
    ensures x in xs ==> exists i :: 0 <= i < |xs| && xs[i] == x && x !in xs[..i] && r == xs[..i] + xs[i + 1..]
  {
    if x in xs then
      FirstOccurrence(xs, x);
      var i :| 0 <= i < |xs| && xs[i] == x && x !in xs[..i];
      RemoveFirstAt(xs, x, i);
      RemoveFirst(xs, x)
    else xs + [x]
  }

  lemma {:induction false} FirstOccurrence(xs: seq<string>, x: string)
    requires x in xs
    ensures exists i :: 0 <= i < |xs| && xs[i] == x && x !in xs[..i]
  {
    if xs[0] != x {
      assert xs == [xs[0]] + xs[1..];
      FirstOccurrence(xs[1..], x);
      var i :| 0 <= i < |xs[1..]| && xs[1..][i] == x && x !in xs[1..][..i];
      assert xs[..i + 1] == [xs[0]] + xs[1..][..i];
      assert xs[i + 1] == x && x !in xs[..i + 1];
    } else {
      assert xs[..0] == [];
      assert xs[0] == x && x !in xs[..0];
    }
  }

  /** `xs` without `x`. */
  function Without(xs: seq<string>, x: string): (r: seq<string>)
    ensures x !in r
  {
    if xs == [] then [] else (if xs[0] == x then [] else [xs[0]]) + Without(xs[1..], x)
  }

  lemma {:induction false} WithoutConcat(a: seq<string>, b: seq<string>, x: string)
    ensures Without(a + b, x) == Without(a, x) + Without(b, x)
  {
    if a == [] {
      assert a + b == b;
    } else {
      assert (a + b)[1..] == a[1..] + b;
      WithoutConcat(a[1..], b, x);
    }
  }

  lemma WithoutSelf(x: string)
    ensures Without([x], x) == []
  {
    assert [x][1..] == [];
  }

  /** An occurrence of `x` contributes nothing to `xs` without `x`. */
  lemma WithoutSkips(a: seq<string>, b: seq<string>, x: string)
    ensures Without(a + [x] + b, x) == Without(a + b, x)
  {
    WithoutConcat(a + [x], b, x);
    WithoutConcat(a, [x], x);
    WithoutConcat(a, b, x);
    WithoutSelf(x);
  }

  lemma {:induction false} WithoutAbsent(xs: seq<string>, x: string)
    requires x !in xs
    ensures Without(xs, x) == xs
  {
    if xs != [] {
      WithoutAbsent(xs[1..], x);
    }
  }

  /** After the first occurrence of a label in a selection without repeats, the label does not occur. */
  lemma AfterOnlyOccurrence(xs: seq<string>, i: nat)
    requires Distinct(xs) && i < |xs|
    ensures xs[i] !in xs[i + 1..] && xs[i] !in xs[..i]
  {
    forall k | i < k < |xs| ensures xs[k] != xs[i] { }
    forall k | 0 <= k < i ensures xs[k] != xs[i] { }
  }

  /** Deleting one element of a selection without repeats leaves none. */
  lemma DeleteKeepsDistinct(xs: seq<string>, i: nat)
    requires Distinct(xs) && i < |xs|
    ensures Distinct(xs[..i] + xs[i + 1..])
  {
    var r := xs[..i] + xs[i + 1..];
    forall a, b | 0 <= a < b < |r| ensures r[a] != r[b] {
      var a' := if a < i then a else a + 1;
      var b' := if b < i then b else b + 1;
      assert r[a] == xs[a'] && r[b] == xs[b'];
    }
  }

  /** A sequence is its part before `i`, its element at `i` and its part after `i`. */
  lemma SplitAround(xs: seq<string>, i: nat)
    requires i < |xs|
    ensures xs == xs[..i] + [xs[i]] + xs[i + 1..]
  {
  }

  /**
   * Toggling keeps the selection free of repeats, flips whether `x` is
   * selected, and leaves the other selections and their order unchanged.
   */
  lemma ToggleFacts(xs: seq<string>, x: string)
    requires Distinct(xs)
    ensures Distinct(Toggle(xs, x))
    ensures x in Toggle(xs, x) <==> x !in xs
    ensures Without(Toggle(xs, x), x) == Without(xs, x)
  {
    var r := Toggle(xs, x);
    if x in xs {
      var i :| 0 <= i < |xs| && xs[i] == x && x !in xs[..i] && r == xs[..i] + xs[i + 1..];
      AfterOnlyOccurrence(xs, i);
      DeleteKeepsDistinct(xs, i);
      SplitAround(xs, i);
      WithoutSkips(xs[..i], xs[i + 1..], x);
    } else {
      WithoutConcat(xs, [x], x);
      WithoutSelf(x);
    }
  }

  /** Toggling an unselected option twice restores the selection; a selected one moves to the end. */
  lemma ToggleTwice(xs: seq<string>, x: string)
    requires Distinct(xs)
    ensures x !in xs ==> Toggle(Toggle(xs, x), x) == xs
    ensures x in xs ==> Toggle(Toggle(xs, x), x) == Without(xs, x) + [x]
  {
    if x !in xs {
      var t := xs + [x];
      assert t[|xs|] == x && x !in t[..|xs|];
      assert t[..|xs|] == xs;
      RemoveFirstAt(t, x, |xs|);
    } else {
      ToggleFacts(xs, x);
      var t := Toggle(xs, x);
      WithoutAbsent(t, x);
    }
  }

  /**
   * `experience_callback`: `experience_complete` frees the chat,
   * `experience_reset` empties the selection, and any other data is an
   * option key whose label is toggled; an unknown chat or key raises KeyError.
   */
  function ExperienceChosen(s: Sessions, chat: int, data: string, options: Dict<string>): (r: Result<Sessions, BotError>)
    ensures chat !in s ==> r == Failure(ChatMissing(chat))
    ensures chat in s && data == CompleteData ==> r == Success(s[chat := s[chat].(state := Free)])
    ensures chat in s && data == ResetData ==> r == Success(s[chat := s[chat].(options := s[chat].options.(experience := []))])
    ensures chat in s && data != CompleteData && data != ResetData ==>
              && (r.Failure? <==> data !in Invert(options))
              && (r.Failure? ==> r.error == OptionMissing(data))
              && (r.Success? ==>
                    var o := s[chat].options;
                    r.value == s[chat := s[chat].(options := o.(experience := Toggle(o.experience, Invert(options)[data])))])
  {
    if chat !in s then Failure(ChatMissing(chat))
    else
      var session := s[chat];
      var o := session.options;
      if data == CompleteData then Success(s[chat := session.(state := Free)])
      else if data == ResetData then Success(s[chat := session.(options := o.(experience := []))])
      else
        var mapping := Invert(options);
        if data !in mapping then Failure(OptionMissing(data))
        else Success(s[chat := session.(options := o.(experience := Toggle(o.experience, mapping[data])))])
  }

  /** When an option's callback data belongs to that option alone, pressing its button toggles the option. */
  lemma ExperienceButton(s: Sessions, chat: int, options: Dict<string>, option: string, data: string)
    requires chat in s && Get(options, option) == Some(data)
    requires data != CompleteData && data != ResetData
    requires forall other :: other != option ==> Get(options, other) != Some(data)
    ensures var r := ExperienceChosen(s, chat, data, options);
            var o := s[chat].options;
            r == Success(s[chat := s[chat].(options := o.(experience := Toggle(o.experience, option)))])
  {
    InvertInjective(options, option, data);
  }

  // ----- the bot -----

  /** Every chat's experience selection is free of repeats. */
  ghost predicate SelectionsDistinct(s: Sessions) {
    forall c :: c in s ==> Distinct(s[c].options.experience)
  }

  /**
   * The bot's chat table. `experienceOptions` is the table loaded at start
   * (option key to label); the handlers replace entries of `sessions`.
   */
  class ResumeBot {
    var sessions: Sessions
    const experienceOptions: Dict<string>

    ghost predicate Valid()
      reads this
    {
      SelectionsDistinct(sessions)
    }

    constructor(experienceOptions: Dict<string>)
      ensures Valid()
      ensures sessions == map[] && this.experienceOptions == experienceOptions
    {
      this.experienceOptions := experienceOptions;
      sessions := map[];
    }

    /** `start`. */
    method Start(chat: int)
      requires Valid()
      modifies this
      ensures Valid()
      ensures sessions == Started(old(sessions), chat)
    {
      sessions := sessions[chat := ChatSession(Free, StartOptions)];
    }

    /** `clear`, restoring the defaults `start` sets (see `ClearedCorrected`). */
    method Clear(chat: int)
      requires Valid()
      modifies this
      ensures Valid()
      ensures sessions == ClearedCorrected(old(sessions), chat)
    {
      sessions := sessions[chat := ChatSession(Free, StartOptions)];
    }

    /** `stop`: the error is the KeyError of popping a chat that is not there. */
    method Stop(chat: int) returns (err: Option<BotError>)
      requires Valid()
      modifies this
      ensures Valid()
      ensures var r := Stopped(old(sessions), chat);
              if r.Success? then err == None && sessions == r.value
              else err == Some(r.error) && sessions == old(sessions)
    {
      if chat !in sessions {
        return Some(ChatMissing(chat));
      }
      sessions := map c | c in sessions && c != chat :: sessions[c];
      err := None;
    }

    /** `accept_parameter`. */
    method AcceptParameter(chat: int, text: string)
      requires Valid()
      modifies this
      ensures Valid()
      ensures sessions == Accepted(old(sessions), chat, text)
    {
      if chat !in sessions {
        return;
      }
      var session := sessions[chat];
      if session.state == AskingKeywords {
        session := session.(options := session.options.(search := text));
      } else if session.state == AskingRegion {
        session := session.(options := session.options.(region := text));
      }
      sessions := sessions[chat := session.(state := Free)];
    }

    /** `set_parameter`. */
    method SetParameter(chat: int, text: string) returns (err: Option<BotError>)
      requires Valid()
      modifies this
      ensures Valid()
      ensures var r := ParameterRequested(old(sessions), chat, text);
              if r.Success? then err == None && sessions == r.value
              else err == Some(r.error) && sessions == old(sessions)
    {
      var state := AskingKeywords;
      if StartsWith(text, "/keywords") {
        state := AskingKeywords;
      } else if StartsWith(text, "/region") {
        state := AskingRegion;
      } else {
        return None;
      }
      if chat !in sessions {
        return Some(ChatMissing(chat));
      }
      sessions := sessions[chat := sessions[chat].(state := state)];
      err := None;
    }

    /** `experience` (with `ASKING_EXPERIENCE`) and `salary` (with `ASKING_SALARY_FROM`). */
    method Prompt(chat: int, state: UserState) returns (err: Option<BotError>)
      requires Valid()
      modifies this
      ensures Valid()
      ensures var r := Prompted(old(sessions), chat, state);
              if r.Success? then err == None && sessions == r.value
              else err == Some(r.error) && sessions == old(sessions)
    {
      if chat !in sessions {
        return Some(ChatMissing(chat));
      }
      sessions := sessions[chat := sessions[chat].(state := state)];
      err := None;
    }

    /** `salary_callback`. */
    method SalaryCallback(chat: int, data: string) returns (err: Option<BotError>)
      requires Valid()
      modifies this
      ensures Valid()
      ensures var r := SalaryChosen(old(sessions), chat, data);
              if r.Success? then err == None && sessions == r.value
              else err == Some(r.error) && sessions == old(sessions)
    {
      var isFrom := StartsWith(data, SalaryFromPrefix);
      if !isFrom && !StartsWith(data, SalaryToPrefix) {
        return None;
      }
      var field := SalaryField(data, if isFrom then SalaryFromPrefix else SalaryToPrefix);
      var n := ParseInt(field);
      if n.None? {
        return Some(ValueError(field));
      }
      if chat !in sessions {
        return Some(ChatMissing(chat));
      }
      var o := sessions[chat].options;
      if isFrom {
        sessions := sessions[chat := ChatSession(AskingSalaryTo, o.(salaryFrom := Amount(n.value)))];
      } else {
        sessions := sessions[chat := ChatSession(Free, o.(salaryTo := Amount(n.value)))];
      }
      err := None;
    }

    /** `__get_experience_mapping`: the loaded table turned around, from each option's callback data to its option. */
    function ExperienceMapping(): (m: map<string, string>)
      ensures forall v :: v in m <==> exists k :: Get(experienceOptions, k) == Some(v)
      ensures forall v :: v in m ==> Get(experienceOptions, m[v]) == Some(v)
    {
      Invert(experienceOptions)
    }

    /** `experience_callback`; toggling keeps every selection free of repeats. */
    method ExperienceCallback(chat: int, data: string) returns (err: Option<BotError>)
      requires Valid()
      modifies this
      ensures Valid()
      ensures var r := ExperienceChosen(old(sessions), chat, data, experienceOptions);
              if r.Success? then err == None && sessions == r.value
              else err == Some(r.error) && sessions == old(sessions)
    {
      if chat !in sessions {
        return Some(ChatMissing(chat));
      }
      var session := sessions[chat];
      var selected := session.options.experience;
      var mapping := ExperienceMapping();
      if data == CompleteData {
        sessions := sessions[chat := session.(state := Free)];
        return None;
      }
      if data == ResetData {
        sessions := sessions[chat := session.(options := session.options.(experience := []))];
        return None;
      }
      if data !in mapping {
        return Some(OptionMissing(data));
      }
      var option := mapping[data];
      selected := ToggleSelection(selected, option);
      var updated := session.(options := session.options.(experience := selected));
      SelectionsDistinctUpdate(sessions, chat, updated);
      sessions := sessions[chat := updated];
      err := None;
    }
  }

  /** Replacing one chat's session by one whose selection has no repeats keeps every selection free of repeats. */
  lemma SelectionsDistinctUpdate(s: Sessions, chat: int, session: ChatSession)
    requires SelectionsDistinct(s) && Distinct(session.options.experience)
    ensures SelectionsDistinct(s[chat := session])
  {
  }

  /** `selected.remove(option)` or `selected.append(option)`, as `experience_callback` edits the list. */
  method ToggleSelection(selected: seq<string>, option: string) returns (r: seq<string>)
    requires Distinct(selected)
    ensures r == Toggle(selected, option) && Distinct(r)
  {
    ToggleFacts(selected, option);
    if option in selected {
      var i :| 0 <= i < |selected| && selected[i] == option && option !in selected[..i] && Toggle(selected, option) == selected[..i] + selected[i + 1..];
      RemoveFirstAt(selected, option, i);
      r := RemoveFirst(selected, option);
    } else {
      r := selected + [option];
    }
  }

  // ----- showing a resume -----

  /** `value or 'N/A'`: a missing or empty field is shown as N/A. */
  function OrNA(field: Option<string>): (r: string)
    ensures field.None? || field == Some("") ==> r == "N/A"
    ensures field.Some? && field.value != "" ==> r == field.value
  {
    if field.Some? && field.value != "" then field.value else "N/A"
  }

  function PositionLine(e: Experience): string { "    Position: " + OrNA(e.position) + "\n" }
  function DurationLine(e: Experience): string { "    Duration: " + OrNA(e.duration) + "\n" }
  function DetailsLine(e: Experience): string { "    Details: " + OrNA(e.details) + "\n\n" }

  /** The three lines and the blank line of one experience entry. */
  function EntryText(e: Experience): string {
    PositionLine(e) + DurationLine(e) + DetailsLine(e)
  }

  /** The entries one after another. */
  function EntriesText(xs: seq<Experience>): string {
    if xs == [] then "" else EntriesText(xs[..|xs| - 1]) + EntryText(xs[|xs| - 1])
  }

  function HeaderLine(href: string): string { "Resume: " + href + "\n" }
  function SalaryLine(salary: string): string { "Salary expectation: " + salary + "\n" }
  const ExperienceHeading: string := "Experience/Education:\n"
  function FooterLine(percentage: int): string { "Resume filling percentage: " + IntToString(percentage) + "%\n" }

  /** `if resume.salary_expectation:` */
  predicate HasSalary(salary: Option<string>) { salary.Some? && salary.value != "" }

  /** `if resume.experience:` */
  predicate HasExperience(experience: Option<seq<Experience>>) { experience.Some? && experience.value != [] }

  /** The text `format_resume` builds. */
  function RenderResume(r: Resume): string {
    HeaderLine(r.href) +
    (if HasSalary(r.salaryExpectation) then SalaryLine(r.salaryExpectation.value) else "") +
    (if HasExperience(r.experience) then ExperienceHeading + EntriesText(r.experience.value) else "") +
    FooterLine(r.fillingPercentage)
  }

  /**
   * The shown text starts with the link line and ends with the percentage
   * line, whose number reads back as the percentage; the salary line comes
   * right after the link line when the salary is non-empty and is absent
   * otherwise.
   */
  lemma RenderResumeFacts(r: Resume)
    ensures var out := RenderResume(r);
            var footer := FooterLine(r.fillingPercentage);
            && StartsWith(out, HeaderLine(r.href))
            && |footer| <= |out| && out[|out| - |footer|..] == footer
            && ParseInt(IntToString(r.fillingPercentage)) == Some(r.fillingPercentage)
            && (HasSalary(r.salaryExpectation) ==>
                  StartsWith(out[|HeaderLine(r.href)|..], SalaryLine(r.salaryExpectation.value)))
            && (!HasSalary(r.salaryExpectation) ==>
                  !StartsWith(out[|HeaderLine(r.href)|..], "Salary expectation: "))
            && (!HasSalary(r.salaryExpectation) && !HasExperience(r.experience) ==>
                  out == HeaderLine(r.href) + footer)
  {
    var out := RenderResume(r);
    var h := HeaderLine(r.href);
    var salary := if HasSalary(r.salaryExpectation) then SalaryLine(r.salaryExpectation.value) else "";
    var body := if HasExperience(r.experience) then ExperienceHeading + EntriesText(r.experience.value) else "";
    var footer := FooterLine(r.fillingPercentage);
    assert out == h + salary + body + footer;
    Concat3(h, salary, body, footer);
    assert out[..|h|] == h;
    assert out[|h|..] == salary + body + footer;
    assert StartsWith(salary + body + footer, salary) by {
      assert (salary + body + footer)[..|salary|] == salary;
    }
    if !HasSalary(r.salaryExpectation) {
      NoSalaryLine(r);
    }
    ParseIntRoundTrip(r.fillingPercentage);
  }

  /** Without a salary, what follows the link line is not a salary line. */
  lemma NoSalaryLine(r: Resume)
    requires !HasSalary(r.salaryExpectation)
    ensures var out := RenderResume(r);
            !StartsWith(out[|HeaderLine(r.href)|..], "Salary expectation: ")
  {
    var h := HeaderLine(r.href);
    var body := if HasExperience(r.experience) then ExperienceHeading + EntriesText(r.experience.value) else "";
    var footer := FooterLine(r.fillingPercentage);
    var rest := body + footer;
    var salary: string := "";
    assert RenderResume(r) == ((h + salary) + body) + footer;
    Concat3(h, salary, body, footer);
    assert (salary + body) + footer == rest;
    assert RenderResume(r) == h + rest;
    AfterPrefix(h, rest);
    RestStart(body, footer, if HasExperience(r.experience) then 'E' else 'R');
    NotSalaryStart(rest);
  }

  lemma AfterPrefix(h: string, rest: string)
    ensures (h + rest)[|h|..] == rest
  {
  }

  lemma RestStart(body: string, footer: string, c: char)
    requires body != [] ==> body[0] == c
    requires body == [] ==> footer != [] && footer[0] == c
    ensures (body + footer) != [] && (body + footer)[0] == c
  {
  }

  lemma NotSalaryStart(rest: string)
    requires rest != [] && rest[0] != 'S'
    ensures !StartsWith(rest, "Salary expectation: ")
  {
  }

  /** An entry with no fields shows N/A on each of its three lines. */
  lemma EmptyEntryText()
    ensures EntryText(Experience(None, None, None)) ==
              "    Position: N/A\n" + "    Duration: N/A\n" + "    Details: N/A\n\n"
  {
    var e := Experience(None, None, None);
    assert PositionLine(e) == "    Position: N/A\n";
    assert DurationLine(e) == "    Duration: N/A\n";
    assert DetailsLine(e) == "    Details: N/A\n\n";
  }

  lemma EntriesTextSnoc(xs: seq<Experience>, k: nat)
    requires k < |xs|
    ensures EntriesText(xs[..k + 1]) == EntriesText(xs[..k]) + EntryText(xs[k])
  {
    assert xs[..k + 1][..k] == xs[..k];
  }

  lemma Concat(a: string, b: string, c: string)
    ensures (a + b) + c == a + (b + c)
  {
  }

  lemma Concat3(a: string, b: string, c: string, d: string)
    ensures ((a + b) + c) + d == a + ((b + c) + d)
  {
  }

  /** The loop of `format_resume` over the experience entries, three lines each. */
  method AppendEntries(start: string, xs: seq<Experience>) returns (text: string)
    ensures text == start + EntriesText(xs)
  {
    text := start;
    var k := 0;
    while k < |xs|
      invariant 0 <= k <= |xs|
      invariant text == start + EntriesText(xs[..k])
    {
      ghost var before := text;
      text := text + PositionLine(xs[k]);
      text := text + DurationLine(xs[k]);
      text := text + DetailsLine(xs[k]);
      EntriesTextSnoc(xs, k);
      Concat3(before, PositionLine(xs[k]), DurationLine(xs[k]), DetailsLine(xs[k]));
      Concat(start, EntriesText(xs[..k]), EntryText(xs[k]));
      k := k + 1;
    }
    assert xs[..k] == xs;
  }

  /** `format_resume`, accumulating the text line by line. */
  method FormatResume(resume: Resume) returns (text: string)
    ensures text == RenderResume(resume)
  {
    ghost var salary := if HasSalary(resume.salaryExpectation) then SalaryLine(resume.salaryExpectation.value) else "";
    ghost var body := if HasExperience(resume.experience) then ExperienceHeading + EntriesText(resume.experience.value) else "";
    text := HeaderLine(resume.href);
    if HasSalary(resume.salaryExpectation) {
      text := text + SalaryLine(resume.salaryExpectation.value);
    }
    assert text == HeaderLine(resume.href) + salary;
    if HasExperience(resume.experience) {
      ghost var before := text;
      text := text + ExperienceHeading;
      text := AppendEntries(text, resume.experience.value);
      Concat(before, ExperienceHeading, EntriesText(resume.experience.value));
    }
    assert text == HeaderLine(resume.href) + salary + body;
    text := text + FooterLine(resume.fillingPercentage);
  }

  // ----- the search -----

  function SalaryOption(v: SalaryValue, field: string): Result<Option<int>, BotError> {
    match v
    case Amount(n) => Success(Some(n))
    case Blank => Failure(ValidationError(field))
  }

  /**
   * `models.SearchOptions(**search_options)`: the texts and the selection
   * carry over; a blank salary is not an integer and fails validation.
   */
  function SearchOptionsOf(o: SessionOptions): (r: Result<SearchOptions, BotError>)
    ensures r.Failure? <==> o.salaryFrom.Blank? || o.salaryTo.Blank?
    ensures r.Success? ==>
              && r.value.search == o.search && r.value.region == Some(o.region)
              && r.value.salaryFrom == Some(o.salaryFrom.n) && r.value.salaryTo == Some(o.salaryTo.n)
              && r.value.experience == Some(o.experience)
  {
    var from := SalaryOption(o.salaryFrom, "salary_from");
    var to := SalaryOption(o.salaryTo, "salary_to");
    if from.Failure? then Failure(from.error)
    else if to.Failure? then Failure(to.error)
    else Success(SearchOptions(o.search, Some(o.region), from.value, to.value, Some(o.experience)))
  }

  /** The message that lists the results: the total found, then the shown resumes separated by blank lines. */
  function ReplyText(found: nat, top: seq<Resume>): string {
    "Found " + IntToString(found) + " resumes\nYou can see top 5 below:\n" +
    Join(Rendered(top), "\n")
  }

  /** `[format_resume(resume) for resume in top_resumes]`. */
  function Rendered(top: seq<Resume>): seq<string> {
    seq(|top|, i requires 0 <= i < |top| => RenderResume(top[i]))
  }

  /** A list holding each resume's rendering, in order, is the rendered list. */
  lemma RenderedOf(top: seq<Resume>, shown: seq<string>)
    requires |shown| == |top| && forall i :: 0 <= i < |top| ==> shown[i] == RenderResume(top[i])
    ensures shown == Rendered(top)
  {
  }

  /** Both parsers together: their configuration and their I/O. */
  datatype Sources = Sources(
    workUa: WorkUa.Config, workUaIo: WorkUa.ScrapeIo,
    robotaUa: RobotaUa.Config, robotaUaIo: RobotaUa.RobotaIo)

  /** The results of both parsers, Work.ua first. */
  function Results(src: Sources, params: SearchOptions): Result<(seq<Resume>, seq<Resume>), BotError> {
    match WorkUa.SearchResumesOf(src.workUa, src.workUaIo, params)
    case Failure(e) => Failure(WorkUaFailed(e))
    case Success(work) =>
      match RobotaUa.SearchResumesOf(src.robotaUa, src.robotaUaIo, params)
      case Failure(e) => Failure(RobotaUaFailed(e))
      case Success(None) => Failure(RobotaUaNoResults)
      case Success(Some(robota)) => Success((work, robota))
  }

  /**
   * `search_resumes`: the chat's options validated, both parsers run, the
   * results concatenated and ranked, and the reply text built from the
   * count and the top five. `list + None` when Robota.ua gives no list
   * raises TypeError.
   */
  function SearchReply(s: Sessions, chat: int, src: Sources): Result<string, BotError> {
    if chat !in s then Failure(ChatMissing(chat))
    else
      match SearchOptionsOf(s[chat].options)
      case Failure(e) => Failure(e)
      case Success(params) => ReplyOf(Results(src, params))
  }

  /** The reply for the results, or the error raised while collecting them. */
  function ReplyOf(results: Result<(seq<Resume>, seq<Resume>), BotError>): Result<string, BotError> {
    match results
    case Failure(e) => Failure(e)
    case Success(found) => Success(FoundReply(found.0, found.1))
  }

  /** The message for the two parsers' results: the total found and the ranked top. */
  function FoundReply(work: seq<Resume>, robota: seq<Resume>): string {
    ReplyText(|work| + |robota|, Ranked(work, robota))
  }

  /**
   * The reply reports every result found but shows only the ranked top:
   * at most five resumes, best first, none of those left out scoring higher.
   */
  lemma SearchReplyFacts(s: Sessions, chat: int, src: Sources)
    requires SearchReply(s, chat, src).Success?
    ensures var params := SearchOptionsOf(s[chat].options).value;
            var work := Results(src, params).value.0;
            var robota := Results(src, params).value.1;
            var top := Ranked(work, robota);
            && SearchReply(s, chat, src).value == ReplyText(|work| + |robota|, top)
            && |top| == Min(TopCount, |work| + |robota|)
            && SortedDesc(top)
            && multiset(top) <= multiset(work + robota)
  {
    var params := SearchOptionsOf(s[chat].options).value;
    var work, robota := Results(src, params).value.0, Results(src, params).value.1;
    RankedFacts(work, robota);
  }

  /** Both parsers' `search_resumes`, Work.ua first. */
  method RunParsers(src: Sources, params: SearchOptions) returns (r: Result<(seq<Resume>, seq<Resume>), BotError>)
    ensures r == Results(src, params)
  {
    var work := WorkUa.SearchResumes(src.workUa, src.workUaIo, params);
    if work.Failure? {
      return Failure(WorkUaFailed(work.error));
    }
    var robota := RobotaUa.SearchResumes(src.robotaUa, src.robotaUaIo, params);
    if robota.Failure? {
      return Failure(RobotaUaFailed(robota.error));
    }
    if robota.value.None? {
      return Failure(RobotaUaNoResults);
    }
    r := Success((work.value, robota.value.value));
  }

  /** `"\n".join([format_resume(resume) for resume in top_resumes])` and the lines before it. */
  method Reply(found: nat, top: seq<Resume>) returns (text: string)
    ensures text == ReplyText(found, top)
  {
    var shown: seq<string> := [];
    var k := 0;
    while k < |top|
      invariant 0 <= k <= |top|
      invariant |shown| == k && forall i :: 0 <= i < k ==> shown[i] == RenderResume(top[i])
    {
      var one := FormatResume(top[k]);
      shown := shown + [one];
      k := k + 1;
    }
    RenderedOf(top, shown);
    text := "Found " + IntToString(found) + " resumes\nYou can see top 5 below:\n" + Join(shown, "\n");
  }

  /** `search_resumes` for a chat: nothing in the table changes. */
  method Search(s: Sessions, chat: int, src: Sources) returns (r: Result<string, BotError>)
    ensures r == SearchReply(s, chat, src)
  {
    if chat !in s {
      return Failure(ChatMissing(chat));
    }
    var params := SearchOptionsOf(s[chat].options);
    if params.Failure? {
      return Failure(params.error);
    }
    var results := RunParsers(src, params.value);
    r := Respond(results);
  }

  /** The reply once the parsers have run: the error they raised, or the ranked results rendered. */
  method Respond(results: Result<(seq<Resume>, seq<Resume>), BotError>) returns (r: Result<string, BotError>)
    ensures r == ReplyOf(results)
  {
    match results
    case Failure(e) =>
      r := Failure(e);
    case Success(found) =>
      var work, robota := found.0, found.1;
      var top := Rank(work, robota);
      var text := Reply(|work| + |robota|, top);
      assert text == FoundReply(work, robota);
      r := Success(text);
  }

  // ----- clearing blanks the salaries -----

  /**
   * As written, a search right after `clear` always fails: the blank
   * salaries `clear` stores do not validate as integers.
   */
  lemma ClearThenSearchFails(s: Sessions, chat: int, src: Sources)
    ensures SearchReply(Cleared(s, chat), chat, src) == Failure(ValidationError("salary_from"))
  {
  }

  /** `clear` restoring the defaults `start` sets, as its description says it does. */
  function ClearedCorrected(s: Sessions, chat: int): (r: Sessions)
    ensures r == Started(s, chat)
    ensures SearchOptionsOf(r[chat].options).Success?
  {
    s[chat := ChatSession(Free, StartOptions)]
  }

  /** After the corrected `clear` a search gets past validation with no salary bound. */
  lemma CorrectedClearThenSearchValidates(s: Sessions, chat: int)
    ensures var o := SearchOptionsOf(ClearedCorrected(s, chat)[chat].options);
            o.Success? && o.value.salaryFrom == Some(0) && o.value.salaryTo == Some(0) && o.value.experience == Some([])
  {
  }
}
