/** The signed bridge intent as text, and reading the swap floor back out of it. */
module Intent {
  import opened Prelude
  import opened Decimal

  // ---------------------------------------------------------------------- building

  datatype BridgeOut = BridgeOut(fromChainId: string, toChainId: string, token: string, amount: string,
                                 feeToken: string, feeAmount: string, minOut: nat, nonce: nat)

  const KEY: string := "min_out: "

  const HEADER: string := "Fogo Bridge"

  function Body(p: BridgeOut): seq<string> {
    ["version: 0.3", "from_chain_id: " + p.fromChainId, "to_chain_id: " + p.toChainId,
     "token: " + p.token, "amount: " + p.amount, KEY + Digits(p.minOut), "fee_token: " + p.feeToken,
     "fee_amount: " + p.feeAmount, "nonce: " + Digits(p.nonce)]
  }

  function Lines(p: BridgeOut): seq<string> { [HEADER + "\n"] + Body(p) }

  /** `lines.join('\n')`. */
  function Join(lines: seq<string>): string {
    if lines == [] then "" else if |lines| == 1 then lines[0] else lines[0] + ("\n" + Join(lines[1..]))
  }

  function BuildBridgeOutIntentMessage(p: BridgeOut): string { Join(Lines(p)) }

  // ------------------------------------------------- the pattern, matched in the text

  predicate Canonical(d: string) { d == "0" || (d != "" && AllDigits(d) && d[0] != '0') }

  function LeadingDigits(s: string): (d: string)
    ensures AllDigits(d) && d <= s
  {
    if s == [] || !IsDigit(s[0]) then [] else [s[0]] + LeadingDigits(s[1..])
  }

  /** The pattern after its line start: key, canonical decimal, then a line end or the end of text. */
  function Tail(text: string): Option<(string, nat)> {
    if !(KEY <= text) then None
    else
      var d := LeadingDigits(text[|KEY|..]);
      var n := |KEY| + |d|;
      var after := text[n..];
      if !Canonical(d) then None
      else if after == "" then Some((d, n))
      else if "\n" <= after then Some((d, n + 1))
      else if "\r\n" <= after then Some((d, n + 2))
      else None
  }

  /** A match at the front: at the start of text, or behind a newline that is still there. */
  function MatchHere(text: string, atStart: bool): Option<(string, nat)> {
    if atStart && Tail(text).Some? then Tail(text)
    else if "\n" <= text && Tail(text[1..]).Some? then
      var (d, e) := Tail(text[1..]).value;
      Some((d, e + 1))
    else None
  }

  lemma {:induction false} TailAdvances(text: string)
    ensures Tail(text).Some? ==> 0 < Tail(text).value.1 <= |text|
  {
  }

  /** `matchAll`: leftmost matches that do not overlap. */
  function Matches(text: string, atStart: bool): seq<string>
    decreases |text|
  {
    if text == "" then []
    else
      var m := MatchHere(text, atStart);
      TailAdvances(text);
      TailAdvances(text[1..]);
      if m.Some? then [m.value.0] + Matches(text[m.value.1..], false) else Matches(text[1..], false)
  }

  /** Every floor the message states, in range and without repeats, in order. */
  function Distinct(digits: seq<string>): seq<nat>
    requires forall i :: 0 <= i < |digits| ==> AllDigits(digits[i])
  {
    if digits == [] then []
    else
      var before, v := Distinct(digits[..|digits| - 1]), Value(digits[|digits| - 1]);
      if v <= U64_MAX && v !in before then before + [v] else before
  }

  lemma {:induction false} MatchesAreDigits(text: string, atStart: bool)
    ensures forall i :: 0 <= i < |Matches(text, atStart)| ==> AllDigits(Matches(text, atStart)[i])
    decreases |text|
  {
    if text != "" {
      var m := MatchHere(text, atStart);
      TailAdvances(text);
      TailAdvances(text[1..]);
      if m.Some? {
        MatchesAreDigits(text[m.value.1..], false);
      } else {
        MatchesAreDigits(text[1..], false);
      }
    }
  }

  /** What the reader returns. */
  function Floors(text: string): seq<nat> {
    MatchesAreDigits(text, true);
    Distinct(Matches(text, true))
  }

  method ParseSignedMinOuts(text: string) returns (floors: seq<nat>)
    ensures floors == Floors(text)
  {
    MatchesAreDigits(text, true);
    var found := Matches(text, true);
    floors := [];
    for i := 0 to |found|
      invariant forall j :: 0 <= j < i ==> AllDigits(found[..i][j])
      invariant floors == Distinct(found[..i])
    {
      assert found[..i + 1][..i] == found[..i];
      var value := Value(found[i]);
      if value <= U64_MAX && value !in floors {
        floors := floors + [value];
      }
    }
    assert found[..|found|] == found;
  }

  // ------------------------------------------------------- the same thing, line by line

  function LineEnd(text: string): (n: nat)
    ensures n <= |text|
  {
    if text == "" || text[0] == '\n' then 0 else 1 + LineEnd(text[1..])
  }

  predicate IsLast(text: string) { LineEnd(text) == |text| }

  function FirstLine(text: string): string { text[..LineEnd(text)] }

  function Rest(text: string): string
    requires !IsLast(text)
  {
    text[LineEnd(text) + 1..]
  }

  /** What one line states. A carriage return may only precede a newline. */
  function Stated(line: string, last: bool): Option<string> {
    if !(KEY <= line) then None
    else
      var body := line[|KEY|..];
      if Canonical(body) then Some(body)
      else if !last && body != "" && body[|body| - 1] == '\r' && Canonical(body[..|body| - 1])
      then Some(body[..|body| - 1])
      else None
  }

  function StatedFirst(text: string): Option<string> { Stated(FirstLine(text), IsLast(text)) }

  /** Every stating line, in order: what the reader's description promises. */
  function AllStated(text: string): seq<string>
    decreases |text|
  {
    (if StatedFirst(text).Some? then [StatedFirst(text).value] else []) +
    (if IsLast(text) then [] else AllStated(Rest(text)))
  }

  /** Two consecutive lines both state a floor. */
  predicate Adjacent(text: string)
    decreases |text|
  {
    !IsLast(text) && ((StatedFirst(text).Some? && StatedFirst(Rest(text)).Some?) || Adjacent(Rest(text)))
  }

  /** A match uses up the newline that the next line would need. */
  function Greedy(text: string, free: bool): seq<string>
    decreases |text|
  {
    if free && StatedFirst(text).Some? then
      [StatedFirst(text).value] + (if IsLast(text) then [] else Greedy(Rest(text), false))
    else if IsLast(text) then []
    else Greedy(Rest(text), true)
  }

  // ----------------------------------------------------------- text and lines agree

  lemma {:induction false} LineShape(text: string)
    ensures forall i :: 0 <= i < LineEnd(text) ==> text[i] != '\n'
    ensures !IsLast(text) ==> text[LineEnd(text)] == '\n'
  {
    if text != "" && text[0] != '\n' {
      LineShape(text[1..]);
      assert forall i :: 1 <= i < LineEnd(text) ==> text[i] == text[1..][i - 1];
    }
  }

  lemma {:induction false} LineEndIs(text: string, n: nat)
    requires n <= |text| && (forall i :: 0 <= i < n ==> text[i] != '\n') && (n < |text| ==> text[n] == '\n')
    ensures LineEnd(text) == n
  {
    if n > 0 {
      LineEndIs(text[1..], n - 1);
    }
  }

  lemma {:induction false} LeadingDigitsIs(d: string, after: string)
    requires AllDigits(d) && (after == "" || !IsDigit(after[0]))
    ensures LeadingDigits(d + after) == d
  {
    if d == "" {
      assert d + after == after;
    } else {
      assert (d + after)[1..] == d[1..] + after;
      LeadingDigitsIs(d[1..], after);
    }
  }

  lemma {:induction false} KeyShape()
    ensures |KEY| == 9 && forall i :: 0 <= i < |KEY| ==> KEY[i] != '\n'
  {
  }

  /** The end of a match that states `d`: just behind the line it is on. */
  function AfterLine(text: string): nat { if IsLast(text) then |text| else LineEnd(text) + 1 }

  lemma {:induction false} TailFound(text: string)
    requires Tail(text).Some?
    ensures StatedFirst(text) == Some(Tail(text).value.0) && Tail(text).value.1 == AfterLine(text)
  {
    KeyShape();
    var d := LeadingDigits(text[|KEY|..]);
    var n := |KEY| + |d|;
    assert text[..n] == KEY + d;
    assert forall i :: 0 <= i < n ==> text[i] == text[..n][i];
    if text[n..] == "" {
      LineEndIs(text, n);
    } else if "\n" <= text[n..] {
      assert text[n] == '\n';
      LineEndIs(text, n);
    } else {
      assert text[n] == text[n..][0] == '\r' && text[n + 1] == text[n..][1] == '\n';
      LineEndIs(text, n + 1);
      assert FirstLine(text)[|KEY|..] == d + "\r";
    }
    assert FirstLine(text)[|KEY|..][..|d|] == d;
  }

  lemma {:induction false} StatedMatches(text: string)
    requires StatedFirst(text).Some?
    ensures Tail(text).Some?
  {
    KeyShape();
    LineShape(text);
    var d := StatedFirst(text).value;
    var after := text[|KEY| + |d|..];
    assert text[|KEY|..] == d + after;
    if FirstLine(text)[|KEY|..] != d {
      assert FirstLine(text)[|KEY|..] == d + "\r";
      assert text[|KEY| + |d|] == '\r' && text[|KEY| + |d| + 1] == '\n';
    }
    LeadingDigitsIs(d, after);
    assert KEY <= text;
  }

  /** Away from line starts nothing matches. */
  lemma {:induction false} SkipLine(text: string)
    ensures Matches(text, false) == if IsLast(text) then [] else Matches(text[LineEnd(text)..], false)
    decreases |text|
  {
    if text != "" && text[0] != '\n' {
      SkipLine(text[1..]);
      assert !IsLast(text) ==> text[LineEnd(text)..] == text[1..][LineEnd(text[1..])..];
    } else {
      assert text[0..] == text;
    }
  }

  /** How a match at the front relates to the first line. */
  lemma {:induction false} TailIsStated(text: string)
    ensures Tail(text) == if StatedFirst(text).Some? then Some((StatedFirst(text).value, AfterLine(text))) else None
  {
    if StatedFirst(text).Some? {
      StatedMatches(text);
    }
    if Tail(text).Some? {
      TailFound(text);
    }
  }

  lemma {:induction false} LedMatches(text: string)
    ensures Matches("\n" + text, false) ==
            if StatedFirst(text).Some? then [StatedFirst(text).value] + Matches(text[AfterLine(text)..], false)
            else Matches(text, false)
  {
    TailIsStated(text);
    var led, e := "\n" + text, AfterLine(text);
    assert led[1..] == text;
    assert led[e + 1..] == text[e..];
  }

  lemma {:induction false} BehindLine(text: string)
    ensures text[AfterLine(text)..] == if IsLast(text) then "" else Rest(text)
    ensures !IsLast(text) ==> text[LineEnd(text)..] == "\n" + Rest(text)
  {
    LineShape(text);
  }

  /** A match in the text starts on a stating line whose newline is still available. */
  lemma {:induction false} MatchesAreGreedy(text: string)
    ensures Matches("\n" + text, false) == Greedy(text, true)
    ensures Matches(text, false) == Greedy(text, false)
    decreases |text|
  {
    BehindLine(text);
    if !IsLast(text) {
      MatchesAreGreedy(Rest(text));
    }
    SkipLine(text);
    LedMatches(text);
  }

  lemma {:induction false} TextIsGreedy(text: string)
    ensures Matches(text, true) == Greedy(text, true)
  {
    TailIsStated(text);
    MatchesAreGreedy(text);
    LedMatches(text);
    if StatedFirst(text).Some? {
      KeyShape();
      assert text != "";
    }
  }

  lemma {:induction false} GreedyFindsAll(text: string, free: bool)
    requires !Adjacent(text) && (free || StatedFirst(text).None?)
    ensures Greedy(text, free) == AllStated(text)
    decreases |text|
  {
    if !IsLast(text) {
      if free && StatedFirst(text).Some? {
        GreedyFindsAll(Rest(text), false);
      } else {
        GreedyFindsAll(Rest(text), true);
      }
    }
  }

  lemma {:induction false} GreedyFindsFewer(text: string, free: bool)
    ensures |Greedy(text, free)| <= |AllStated(text)|
    ensures Adjacent(text) || (!free && StatedFirst(text).Some?) ==> |Greedy(text, free)| < |AllStated(text)|
    decreases |text|
  {
    if !IsLast(text) {
      GreedyFindsFewer(Rest(text), false);
      GreedyFindsFewer(Rest(text), true);
    }
  }

  // ------------------------------------------------------------------- main results

  /** The pattern matches every stating line exactly when no two consecutive lines state a floor. */
  lemma {:induction false} FindsEveryFloorIff(text: string)
    ensures Matches(text, true) == AllStated(text) <==> !Adjacent(text)
  {
    TextIsGreedy(text);
    if Adjacent(text) {
      GreedyFindsFewer(text, true);
    } else {
      GreedyFindsAll(text, true);
    }
  }

  // ------------------------------------------------------------ the returned floors

  /** Line by line: the second, fourth, ... of a block of consecutive stating lines. */
  function Missed(text: string, free: bool): seq<string>
    decreases |text|
  {
    if StatedFirst(text).None? then (if IsLast(text) then [] else Missed(Rest(text), true))
    else (if free then [] else [StatedFirst(text).value]) + (if IsLast(text) then [] else Missed(Rest(text), !free))
  }

  /** The line states `v`, a 64-bit number. */
  predicate States(digits: string, v: nat) { AllDigits(digits) && Value(digits) == v <= U64_MAX }

  predicate Among(lines: seq<string>, v: nat) { exists i :: 0 <= i < |lines| && States(lines[i], v) }

  lemma {:induction false} AmongConcat(a: seq<string>, b: seq<string>, v: nat)
    ensures Among(a + b, v) <==> Among(a, v) || Among(b, v)
  {
    if Among(a, v) {
      var i :| 0 <= i < |a| && States(a[i], v);
      assert (a + b)[i] == a[i];
    }
    if Among(b, v) {
      var i :| 0 <= i < |b| && States(b[i], v);
      assert (a + b)[|a| + i] == b[i];
    }
  }

  /** The lists of stating, matched and missed lines, from the first line on. */
  lemma {:induction false} ListsFromFirst(text: string, free: bool)
    ensures var here := if StatedFirst(text).Some? then [StatedFirst(text).value] else [];
            var next := free ==> StatedFirst(text).None?;
            && AllStated(text) == here + (if IsLast(text) then [] else AllStated(Rest(text)))
            && Greedy(text, free) == (if free then here else []) + (if IsLast(text) then [] else Greedy(Rest(text), next))
            && Missed(text, free) == (if free then [] else here) + (if IsLast(text) then [] else Missed(Rest(text), next))
  {
  }

  /** Every stating line is either matched or missed. */
  lemma {:induction false} MatchedOrMissed(text: string, free: bool, v: nat)
    ensures Among(AllStated(text), v) <==> Among(Greedy(text, free), v) || Among(Missed(text, free), v)
    decreases |text|
  {
    var here := if StatedFirst(text).Some? then [StatedFirst(text).value] else [];
    var next := free ==> StatedFirst(text).None?;
    ListsFromFirst(text, free);
    if IsLast(text) {
      SplitAmong(here, [], [], [], free, v);
    } else {
      MatchedOrMissed(Rest(text), next, v);
      SplitAmong(here, AllStated(Rest(text)), Greedy(Rest(text), next), Missed(Rest(text), next), free, v);
    }
  }

  lemma {:induction false} SplitAmong(here: seq<string>, all: seq<string>, matched: seq<string>, missed: seq<string>, free: bool, v: nat)
    requires Among(all, v) <==> Among(matched, v) || Among(missed, v)
    ensures Among(here + all, v) <==>
              || Among((if free then here else []) + matched, v)
              || Among((if free then [] else here) + missed, v)
  {
    AmongConcat(here, all, v);
    AmongConcat(if free then here else [], matched, v);
    AmongConcat(if free then [] else here, missed, v);
  }

  /** Dropping repeats and large numbers keeps exactly the stated 64-bit values, each once. */
  lemma {:induction false} DistinctKeeps(digits: seq<string>, v: nat)
    requires forall i :: 0 <= i < |digits| ==> AllDigits(digits[i])
    ensures v in Distinct(digits) <==> Among(digits, v)
    ensures forall i, j :: 0 <= i < j < |Distinct(digits)| ==> Distinct(digits)[i] != Distinct(digits)[j]
  {
    if digits != [] {
      var n := |digits| - 1;
      DistinctKeeps(digits[..n], v);
      assert digits == digits[..n] + [digits[n]];
      AmongConcat(digits[..n], [digits[n]], v);
      assert Among([digits[n]], v) <==> States([digits[n]][0], v);
    }
  }

  lemma {:induction false} FloorsAreMatched(text: string, v: nat)
    ensures v in Floors(text) <==> Among(Greedy(text, true), v)
    ensures forall i, j :: 0 <= i < j < |Floors(text)| ==> Floors(text)[i] != Floors(text)[j]
  {
    MatchesAreDigits(text, true);
    TextIsGreedy(text);
    DistinctKeeps(Matches(text, true), v);
  }

  /** Nothing is returned that no line states. */
  lemma {:induction false} FloorsAreStated(text: string, v: nat)
    requires v in Floors(text)
    ensures Among(AllStated(text), v)
  {
    FloorsAreMatched(text, v);
    MatchedOrMissed(text, true, v);
  }

  /** Every 64-bit floor that some line states is returned. */
  ghost predicate ReturnsAll(text: string) { forall v :: Among(AllStated(text), v) ==> v in Floors(text) }

  /** Every 64-bit floor on a missed line is also on a matched one: first, third, ... of its block. */
  ghost predicate MissedAreRepeats(text: string) {
    forall v :: Among(Missed(text, true), v) ==> Among(Greedy(text, true), v)
  }

  /** The reader returns every stated floor exactly when what it misses it finds elsewhere. */
  lemma {:induction false} ReturnsEveryFloorIff(text: string)
    ensures ReturnsAll(text) <==> MissedAreRepeats(text)
  {
    if ReturnsAll(text) {
      forall v: nat | Among(Missed(text, true), v)
        ensures Among(Greedy(text, true), v)
      {
        MatchedOrMissed(text, true, v);
        FloorsAreMatched(text, v);
      }
    }
    if MissedAreRepeats(text) {
      forall v: nat | Among(AllStated(text), v)
        ensures v in Floors(text)
      {
        MatchedOrMissed(text, true, v);
        FloorsAreMatched(text, v);
      }
    }
  }

  /** No line is missed exactly when no two consecutive lines state a floor. */
  lemma {:induction false} MissedIffAdjacent(text: string, free: bool)
    ensures Missed(text, free) == [] <==> !Adjacent(text) && (free || StatedFirst(text).None?)
    decreases |text|
  {
    if !IsLast(text) {
      MissedIffAdjacent(Rest(text), free ==> StatedFirst(text).None?);
    }
  }

  predicate OneLine(s: string) { '\n' !in s }

  predicate FieldsOk(p: BridgeOut) {
    && OneLine(p.fromChainId) && OneLine(p.toChainId) && OneLine(p.token) && OneLine(p.amount)
    && OneLine(p.feeToken) && OneLine(p.feeAmount)
  }

  /** Stating lines of a joined list of one-line strings. */
  function StatedLines(lines: seq<string>): seq<string> {
    if lines == [] then []
    else (if Stated(lines[0], |lines| == 1).Some? then [Stated(lines[0], |lines| == 1).value] else []) + StatedLines(lines[1..])
  }

  predicate AdjacentLines(lines: seq<string>) {
    exists i :: 0 <= i < |lines| - 1 && KEY <= lines[i] && KEY <= lines[i + 1]
  }

  lemma {:induction false} JoinedLines(lines: seq<string>)
    requires lines != [] && forall i :: 0 <= i < |lines| ==> OneLine(lines[i])
    ensures FirstLine(Join(lines)) == lines[0] && (IsLast(Join(lines)) <==> |lines| == 1)
    ensures |lines| > 1 ==> Rest(Join(lines)) == Join(lines[1..])
  {
    var text := Join(lines);
    if |lines| > 1 {
      assert text[|lines[0]|] == '\n';
      assert forall i :: 0 <= i < |lines[0]| ==> text[i] == lines[0][i];
    }
    LineEndIs(text, |lines[0]|);
    assert text[..|lines[0]|] == lines[0];
  }

  lemma {:induction false} JoinedStates(lines: seq<string>)
    requires lines != [] && forall i :: 0 <= i < |lines| ==> OneLine(lines[i])
    ensures AllStated(Join(lines)) == StatedLines(lines)
  {
    JoinedLines(lines);
    if |lines| > 1 {
      JoinedStates(lines[1..]);
    } else {
      assert lines[1..] == [];
    }
  }

  lemma {:induction false} JoinedAdjacent(lines: seq<string>)
    requires lines != [] && forall i :: 0 <= i < |lines| ==> OneLine(lines[i])
    requires Adjacent(Join(lines))
    ensures AdjacentLines(lines)
  {
    JoinedLines(lines);
    var rest := lines[1..];
    JoinedLines(rest);
    if Adjacent(Join(rest)) {
      JoinedAdjacent(rest);
      var i :| 0 <= i < |rest| - 1 && KEY <= rest[i] && KEY <= rest[i + 1];
      assert lines[i + 1] == rest[i] && lines[i + 2] == rest[i + 1];
    } else {
      assert KEY <= lines[0] && KEY <= lines[1];
    }
  }

  /**
   * The reader is described as finding every stated floor, but a floor on the line directly behind
   * another is missed: for example 2 in the text of the two lines "min_out: 1" and "min_out: 2".
   */
  lemma {:induction false} SecondFloorMissed(first: nat, second: nat)
    ensures var text := Join([KEY + Digits(first), KEY + Digits(second)]);
            && AllStated(text) == [Digits(first), Digits(second)]
            && Matches(text, true) == [Digits(first)]
            && Floors(text) == (if first <= U64_MAX then [first] else [])
            && (first != second ==> second !in Floors(text))
  {
    var lines := [KEY + Digits(first), KEY + Digits(second)];
    DigitsCanonical(first);
    DigitsCanonical(second);
    OneLineConcat(KEY, Digits(first));
    OneLineConcat(KEY, Digits(second));
    TwoStatingLines(lines, Digits(first), Digits(second));
    TextIsGreedy(Join(lines));
    OneFloor(first);
  }

  lemma {:induction false} TwoStatingLines(lines: seq<string>, first: string, second: string)
    requires lines == [KEY + first, KEY + second] && Canonical(first) && Canonical(second)
    requires OneLine(lines[0]) && OneLine(lines[1])
    ensures AllStated(Join(lines)) == [first, second] && Greedy(Join(lines), true) == [first]
  {
    assert lines[1..] == [lines[1]];
    JoinedLines(lines);
    JoinedLines(lines[1..]);
    assert lines[0][|KEY|..] == first && lines[1][|KEY|..] == second;
  }

  /** The built message as one-line strings: the header carries its own newline. */
  function SplitLines(p: BridgeOut): seq<string> { [HEADER, ""] + Body(p) }

  lemma {:induction false} HeaderSplits(header: string, rest: seq<string>)
    requires rest != []
    ensures Join([header + "\n"] + rest) == Join([header, ""] + rest)
  {
    var a, b := [header + "\n"] + rest, [header, ""] + rest;
    assert a[1..] == rest && b[1..] == [""] + rest && ([""] + rest)[1..] == rest;
    var r := "\n" + Join(rest);
    assert Join(b) == header + ("\n" + ("" + r));
    assert Join(a) == (header + "\n") + r;
  }

  lemma {:induction false} OtherKeys(v: string)
    ensures !(KEY <= "from_chain_id: " + v) && !(KEY <= "to_chain_id: " + v) && !(KEY <= "token: " + v)
    ensures !(KEY <= "amount: " + v) && !(KEY <= "fee_token: " + v) && !(KEY <= "fee_amount: " + v)
    ensures !(KEY <= "nonce: " + v) && !(KEY <= HEADER) && !(KEY <= "version: 0.3") && !(KEY <= "")
  {
    assert KEY[0] == 'm';
    assert ("from_chain_id: " + v)[0] == 'f' && ("to_chain_id: " + v)[0] == 't' && ("token: " + v)[0] == 't';
    assert ("amount: " + v)[0] == 'a' && ("fee_token: " + v)[0] == 'f' && ("fee_amount: " + v)[0] == 'f';
    assert ("nonce: " + v)[0] == 'n';
  }

  /** Among the lines of a built message only the seventh can state a floor. */
  lemma {:induction false} OnlyFloorLine(p: BridgeOut, i: nat)
    requires i < |SplitLines(p)|
    ensures |SplitLines(p)| == 11 && (KEY <= SplitLines(p)[i] <==> i == 7)
    ensures SplitLines(p)[7] == KEY + Digits(p.minOut)
  {
    OtherKeys(p.fromChainId);
    OtherKeys(p.toChainId);
    OtherKeys(p.token);
    OtherKeys(p.amount);
    OtherKeys(p.feeToken);
    OtherKeys(p.feeAmount);
    OtherKeys(Digits(p.nonce));
    assert SplitLines(p)[0] == HEADER && SplitLines(p)[1] == "" && SplitLines(p)[2] == "version: 0.3";
  }

  lemma {:induction false} DigitsCanonical(n: nat)
    ensures Canonical(Digits(n)) && OneLine(Digits(n))
  {
    DigitsAreDigits(n);
  }

  lemma {:induction false} OneLineConcat(a: string, b: string)
    requires OneLine(a) && OneLine(b)
    ensures OneLine(a + b)
  {
  }

  lemma {:induction false} BuiltLinesAreLines(p: BridgeOut, i: nat)
    requires FieldsOk(p) && i < |SplitLines(p)|
    ensures OneLine(SplitLines(p)[i])
  {
    DigitsCanonical(p.minOut);
    DigitsCanonical(p.nonce);
    OneLineConcat("from_chain_id: ", p.fromChainId);
    OneLineConcat("to_chain_id: ", p.toChainId);
    OneLineConcat("token: ", p.token);
    OneLineConcat("amount: ", p.amount);
    OneLineConcat(KEY, Digits(p.minOut));
    OneLineConcat("fee_token: ", p.feeToken);
    OneLineConcat("fee_amount: ", p.feeAmount);
    OneLineConcat("nonce: ", Digits(p.nonce));
  }

  lemma {:induction false} SingleStated(lines: seq<string>, at: nat, d: string)
    requires at < |lines| && lines[at] == KEY + d && Canonical(d)
    requires forall i :: 0 <= i < |lines| && i != at ==> !(KEY <= lines[i])
    ensures StatedLines(lines) == [d]
  {
    if at == 0 {
      assert lines[0][|KEY|..] == d;
      NoneStated(lines[1..]);
    } else {
      SingleStated(lines[1..], at - 1, d);
    }
  }

  lemma {:induction false} NoneStated(lines: seq<string>)
    requires forall i :: 0 <= i < |lines| ==> !(KEY <= lines[i])
    ensures StatedLines(lines) == []
  {
    if lines != [] {
      NoneStated(lines[1..]);
    }
  }

  lemma {:induction false} BuiltLines(p: BridgeOut)
    requires FieldsOk(p)
    ensures |SplitLines(p)| == 11 && SplitLines(p)[7] == KEY + Digits(p.minOut)
    ensures forall i :: 0 <= i < |SplitLines(p)| ==> OneLine(SplitLines(p)[i])
    ensures forall i :: 0 <= i < |SplitLines(p)| && i != 7 ==> !(KEY <= SplitLines(p)[i])
  {
    forall i: nat | i < |SplitLines(p)|
      ensures OneLine(SplitLines(p)[i]) && (i != 7 ==> !(KEY <= SplitLines(p)[i]))
    {
      BuiltLinesAreLines(p, i);
      OnlyFloorLine(p, i);
    }
  }

  lemma {:induction false} OneFloor(n: nat)
    ensures AllDigits(Digits(n)) && Distinct([Digits(n)]) == if n <= U64_MAX then [n] else []
  {
    DigitsAreDigits(n);
    var found := [Digits(n)];
    assert found[..0] == [] && Distinct(found[..0]) == [];
  }

  /** Whatever newline-free fields surround it, the signed floor is read back exactly, and nothing else is. */
  lemma {:induction false} SignedFloorReadBack(p: BridgeOut)
    requires FieldsOk(p)
    ensures Matches(BuildBridgeOutIntentMessage(p), true) == [Digits(p.minOut)]
    ensures Floors(BuildBridgeOutIntentMessage(p)) == if p.minOut <= U64_MAX then [p.minOut] else []
  {
    HeaderSplits(HEADER, Body(p));
    BuiltLines(p);
    JoinedStates(SplitLines(p));
    if Adjacent(Join(SplitLines(p))) {
      JoinedAdjacent(SplitLines(p));
    }
    DigitsCanonical(p.minOut);
    SingleStated(SplitLines(p), 7, Digits(p.minOut));
    FindsEveryFloorIff(BuildBridgeOutIntentMessage(p));
    OneFloor(p.minOut);
  }

  // ------------------------------------------------------------------ the other fields

  /** The value of the first line that starts with a label. */
  function FieldOf(text: string, key: string): Option<string>
    decreases |text|
  {
    if key <= FirstLine(text) then Some(FirstLine(text)[|key|..])
    else if IsLast(text) then None
    else FieldOf(Rest(text), key)
  }

  function FieldIn(lines: seq<string>, key: string): Option<string> {
    if lines == [] then None
    else if key <= lines[0] then Some(lines[0][|key|..])
    else FieldIn(lines[1..], key)
  }

  lemma {:induction false} JoinedField(lines: seq<string>, key: string)
    requires lines != [] && forall i :: 0 <= i < |lines| ==> OneLine(lines[i])
    ensures FieldOf(Join(lines), key) == FieldIn(lines, key)
  {
    JoinedLines(lines);
    if |lines| > 1 {
      JoinedField(lines[1..], key);
    } else {
      assert lines[1..] == [];
    }
  }

  lemma {:induction false} FoundAt(lines: seq<string>, key: string, at: nat, v: string)
    requires at < |lines| && lines[at] == key + v && forall i :: 0 <= i < at ==> !(key <= lines[i])
    ensures FieldIn(lines, key) == Some(v)
  {
    if at == 0 {
      assert lines[0][|key|..] == v;
    } else {
      FoundAt(lines[1..], key, at - 1, v);
    }
  }

  const LABELS: seq<string> := ["version: ", "from_chain_id: ", "to_chain_id: ", "token: ", "amount: ", "min_out: ",
                                "fee_token: ", "fee_amount: ", "nonce: "]

  function ValuesOf(p: BridgeOut): seq<string> {
    ["0.3", p.fromChainId, p.toChainId, p.token, p.amount, Digits(p.minOut), p.feeToken, p.feeAmount, Digits(p.nonce)]
  }

  /** Where two labels first differ. */
  function DiffersAt(i: nat, j: nat): nat {
    if i == 1 && (j == 6 || j == 7) then 1 else if i == 2 && j == 3 then 2 else if i == 6 && j == 7 then 4 else 0
  }

  lemma {:induction false} LabelsDiffer(i: nat, j: nat)
    requires i < j < 9
    ensures var k := DiffersAt(i, j); k < |LABELS[i]| && k < |LABELS[j]| && LABELS[i][k] != LABELS[j][k]
  {
  }

  lemma {:induction false} LineHasLabel(p: BridgeOut, i: nat)
    requires i < 9
    ensures |SplitLines(p)| == 11 && SplitLines(p)[i + 2] == LABELS[i] + ValuesOf(p)[i]
  {
    assert SplitLines(p)[i + 2] == Body(p)[i];
    assert "version: " + "0.3" == "version: 0.3";
  }

  lemma {:induction false} EarlierLineDiffers(p: BridgeOut, i: nat, j: nat)
    requires i < j + 2 && j < 9 && i < |SplitLines(p)|
    ensures !(LABELS[j] <= SplitLines(p)[i])
  {
    if i >= 2 {
      LineHasLabel(p, i - 2);
      LabelsDiffer(i - 2, j);
      var k := DiffersAt(i - 2, j);
      assert SplitLines(p)[i][k] == LABELS[i - 2][k];
    } else if i == 0 {
      assert SplitLines(p)[0] == HEADER && HEADER[0] == 'F';
      assert LABELS[j][0] != 'F';
    } else {
      assert SplitLines(p)[1] == "" && |LABELS[j]| > 0;
    }
  }

  /** Every field of a built intent is read back under its own label, whatever newline-free text the others hold. */
  lemma {:induction false} FieldsReadBack(p: BridgeOut, j: nat)
    requires FieldsOk(p) && j < 9
    ensures FieldOf(BuildBridgeOutIntentMessage(p), LABELS[j]) == Some(ValuesOf(p)[j])
  {
    HeaderSplits(HEADER, Body(p));
    BuiltLines(p);
    JoinedField(SplitLines(p), LABELS[j]);
    LineHasLabel(p, j);
    forall i | 0 <= i < j + 2
      ensures !(LABELS[j] <= SplitLines(p)[i])
    {
      EarlierLineDiffers(p, i, j);
    }
    FoundAt(SplitLines(p), LABELS[j], j + 2, ValuesOf(p)[j]);
  }
}
