// The streaming log redactor of the Runner (internal/runner/redaction.go) and
// the whole-input scan that it refines.

/** The reference semantics: one left-to-right longest-match scan of the whole input. */
module RedactionScan {
  import opened Basics

  const OPEN_BRACKET: Byte := 91
  const CLOSE_BRACKET: Byte := 93

  /** The bytes of "[REDACTED]". */
  const MARK: seq<Byte> := [OPEN_BRACKET, 82, 69, 68, 65, 67, 84, 69, 68, CLOSE_BRACKET]

  /** A piece of scanned input: one byte let through, or a stretch replaced by the mark. */
  datatype Segment = Passed(b: Byte) | Redacted(original: seq<Byte>)

  /** Some secret starts with `p` and is longer than `p`. */
  predicate AwaitsMore(secrets: seq<seq<Byte>>, p: seq<Byte>) {
    exists s | s in secrets :: p < s
  }

  /** Length of the longest secret that `p` starts with, or zero. */
  function Longest(secrets: seq<seq<Byte>>, p: seq<Byte>): (m: nat)
    ensures m <= |p|
  {
    if secrets == [] then 0
    else
      var m := Longest(secrets[1..], p);
      if secrets[0] <= p && m < |secrets[0]| then |secrets[0]| else m
  }

  lemma {:induction false} LongestIsLongest(secrets: seq<seq<Byte>>, p: seq<Byte>)
    ensures forall i | 0 <= i < |secrets| && secrets[i] <= p :: |secrets[i]| <= Longest(secrets, p)
    ensures Longest(secrets, p) > 0 ==>
      exists i | 0 <= i < |secrets| :: secrets[i] <= p && |secrets[i]| == Longest(secrets, p)
  {
    if secrets != [] {
      var m := Longest(secrets[1..], p);
      LongestIsLongest(secrets[1..], p);
      if !(secrets[0] <= p && m < |secrets[0]|) && m > 0 {
        var i :| 0 <= i < |secrets[1..]| && secrets[1..][i] <= p && |secrets[1..][i]| == m;
        assert secrets[i + 1] <= p && |secrets[i + 1]| == m;
      }
      forall i | 0 <= i < |secrets| && secrets[i] <= p ensures |secrets[i]| <= Longest(secrets, p) {
        if i > 0 { assert secrets[1..][i - 1] <= p; }
      }
    }
  }

  /** The longest match is a secret, and any secret at the front makes it positive. */
  lemma LongestMatches(secrets: seq<seq<Byte>>, p: seq<Byte>, s: seq<Byte>)
    ensures var m := Longest(secrets, p); m > 0 ==> p[..m] in secrets
    ensures s in secrets && s <= p ==> |s| <= Longest(secrets, p)
  {
    LongestIsLongest(secrets, p);
    var m := Longest(secrets, p);
    if m > 0 {
      var i :| 0 <= i < |secrets| && secrets[i] <= p && |secrets[i]| == m;
      assert p[..m] == secrets[i];
    }
  }

  /** How many bytes the first segment of a non-empty input covers. */
  function Advance(secrets: seq<seq<Byte>>, input: seq<Byte>): (n: nat)
    requires input != []
    ensures 1 <= n <= |input|
  {
    var m := Longest(secrets, input);
    if m > 0 then m else if AwaitsMore(secrets, input) then |input| else 1
  }

  /** The first segment: the longest secret, else a final partial secret, else one byte. */
  function Head(secrets: seq<seq<Byte>>, input: seq<Byte>): Segment
    requires input != []
  {
    if Longest(secrets, input) > 0 || AwaitsMore(secrets, input) then Redacted(input[..Advance(secrets, input)])
    else Passed(input[0])
  }

  function Scan(secrets: seq<seq<Byte>>, input: seq<Byte>): seq<Segment>
    decreases |input|
  {
    if input == [] then []
    else [Head(secrets, input)] + Scan(secrets, input[Advance(secrets, input)..])
  }

  function Text(segment: Segment): seq<Byte> {
    if segment.Passed? then [segment.b] else MARK
  }

  function Original(segment: Segment): seq<Byte> {
    if segment.Passed? then [segment.b] else segment.original
  }

  /** The bytes that reach the log. */
  function Render(segments: seq<Segment>): seq<Byte> {
    if segments == [] then [] else Text(segments[0]) + Render(segments[1..])
  }

  /** The input bytes that the segments stand for, in order. */
  function Originals(segments: seq<Segment>): seq<Byte> {
    if segments == [] then [] else Original(segments[0]) + Originals(segments[1..])
  }

  lemma {:induction false} RenderConcat(a: seq<Segment>, b: seq<Segment>)
    ensures Render(a + b) == Render(a) + Render(b)
  {
    if a == [] {
      assert a + b == b;
    } else {
      assert (a + b)[1..] == a[1..] + b;
      RenderConcat(a[1..], b);
    }
  }

  /** Unfolds one step of the scan. */
  lemma ScanStep(secrets: seq<seq<Byte>>, input: seq<Byte>)
    requires input != []
    ensures Scan(secrets, input) != [] && Scan(secrets, input)[0] == Head(secrets, input)
    ensures Scan(secrets, input)[1..] == Scan(secrets, input[Advance(secrets, input)..])
    ensures Original(Head(secrets, input)) == input[..Advance(secrets, input)]
  {
  }

  /** Passed bytes and replaced stretches together rebuild the input in order. */
  lemma {:induction false} ScanRebuildsInput(secrets: seq<seq<Byte>>, input: seq<Byte>)
    ensures Originals(Scan(secrets, input)) == input
    decreases |input|
  {
    if input != [] {
      var n := Advance(secrets, input);
      ScanStep(secrets, input);
      ScanRebuildsInput(secrets, input[n..]);
      OriginalsStep(Scan(secrets, input), input, n);
    }
  }

  lemma OriginalsStep(segments: seq<Segment>, input: seq<Byte>, n: nat)
    requires segments != [] && n <= |input|
    requires Original(segments[0]) == input[..n] && Originals(segments[1..]) == input[n..]
    ensures Originals(segments) == input
  {
    assert input == input[..n] + input[n..];
  }

  /** A stretch that the scan may replace: a whole secret, or at the end of the input a partial one. */
  predicate ProperSpan(secrets: seq<seq<Byte>>, original: seq<Byte>, atEnd: bool) {
    (original in secrets && original != []) || (atEnd && AwaitsMore(secrets, original))
  }

  /** Every replaced stretch is a whole secret, or the last segment and a proper prefix of one. */
  lemma {:induction false} SpansAreSecrets(secrets: seq<seq<Byte>>, input: seq<Byte>, i: nat)
    requires i < |Scan(secrets, input)| && Scan(secrets, input)[i].Redacted?
    ensures ProperSpan(secrets, Scan(secrets, input)[i].original, i == |Scan(secrets, input)| - 1)
    decreases |input|
  {
    var n := Advance(secrets, input);
    ScanStep(secrets, input);
    LongestMatches(secrets, input, []);
    if i > 0 {
      SpansAreSecrets(secrets, input[n..], i - 1);
    } else if Longest(secrets, input) == 0 {
      assert input[n..] == [] && input[..n] == input;
      assert Scan(secrets, input[n..]) == [];
    }
  }

  /** Where the segment `i` begins in the input. */
  function Begins(segments: seq<Segment>, i: nat): nat
    requires i <= |segments|
  {
    |Originals(segments[..i])|
  }

  /** No secret that stands where a segment begins is longer than what the segment replaces; where a byte passes, none stands. */
  lemma {:induction false} StretchIsLongest(secrets: seq<seq<Byte>>, input: seq<Byte>, i: nat, s: seq<Byte>)
    requires i < |Scan(secrets, input)| && s in secrets && s != []
    ensures var segments := Scan(secrets, input);
            Begins(segments, i) <= |input| &&
            (s <= input[Begins(segments, i)..] ==> segments[i].Redacted? && |s| <= |segments[i].original|)
    decreases |input|
  {
    var segments := Scan(secrets, input);
    var n := Advance(secrets, input);
    ScanStep(secrets, input);
    if i == 0 {
      assert segments[..0] == [] && input[0..] == input;
      LongestMatches(secrets, input, s);
    } else {
      StretchIsLongest(secrets, input[n..], i - 1, s);
      assert segments[..i][0] == segments[0] && segments[..i][1..] == segments[1..][..i - 1];
      assert Begins(segments, i) == n + Begins(segments[1..], i - 1);
      assert input[Begins(segments, i)..] == input[n..][Begins(segments[1..], i - 1)..];
    }
  }

  /** Segments `i .. i + |s|` let the bytes of `s` through one after the other. */
  predicate PassesAt(segments: seq<Segment>, i: nat, s: seq<Byte>) {
    i + |s| <= |segments| && forall k | i <= k < i + |s| :: segments[k] == Passed(s[k - i])
  }

  lemma {:induction false} PassedPrefix(segments: seq<Segment>, s: seq<Byte>)
    requires PassesAt(segments, 0, s)
    ensures s <= Originals(segments)
  {
    if s != [] {
      assert PassesAt(segments[1..], 0, s[1..]);
      PassedPrefix(segments[1..], s[1..]);
      assert segments[0] == Passed(s[0]);
      assert s == [s[0]] + s[1..];
    }
  }

  /** No secret occurs inside a stretch of consecutive passed-through bytes. */
  lemma {:induction false} NoSecretPassesThrough(secrets: seq<seq<Byte>>, input: seq<Byte>, i: nat, s: seq<Byte>)
    requires s in secrets && s != []
    ensures !PassesAt(Scan(secrets, input), i, s)
    decreases |input|
  {
    var segments := Scan(secrets, input);
    if input != [] {
      var n := Advance(secrets, input);
      ScanStep(secrets, input);
      if i == 0 {
        assert PassesAt(segments, 0, s) ==> segments[0].Passed?;
        assert PassesAt(segments, 0, s) ==> s <= input by {
          if PassesAt(segments, 0, s) {
            PassedPrefix(segments, s);
            ScanRebuildsInput(secrets, input);
          }
        }
        LongestMatches(secrets, input, s);
      } else {
        NoSecretPassesThrough(secrets, input[n..], i - 1, s);
        assert PassesAt(segments, i, s) ==> PassesAt(segments[1..], i - 1, s);
      }
    }
  }

  // Whether a secret can appear in the output at all: the mark itself is text.

  predicate OccursAt(text: seq<Byte>, k: nat, s: seq<Byte>) {
    k + |s| <= |text| && text[k..k + |s|] == s
  }

  ghost predicate Occurs(text: seq<Byte>, s: seq<Byte>) {
    exists k: nat :: OccursAt(text, k, s)
  }

  /** Part of the secret is part of the mark: an end of one begins the other, or the mark lies inside the secret. */
  predicate RunsInto(s: seq<Byte>) {
    (exists p | 0 < p < |s| :: s[p..] <= MARK || MARK <= s[p..]) || exists k | 0 <= k < |MARK| :: MARK[k..] < s
  }

  /** Secrets without bracket bytes never run into the mark. */
  lemma BracketFreeIsApart(s: seq<Byte>)
    requires OPEN_BRACKET !in s && CLOSE_BRACKET !in s
    ensures !RunsInto(s)
  {
    forall p | 0 < p < |s| ensures !(s[p..] <= MARK || MARK <= s[p..]) { assert s[p] in s && s[p..][0] == s[p]; }
    forall k | 0 <= k < |MARK| ensures !(MARK[k..] < s) {
      var last := |MARK| - 1 - k;
      assert MARK[k..][last] == CLOSE_BRACKET && (last < |s| ==> s[last] in s);
    }
  }

  /** An end of such a secret stands at the front of the output only if it was let through there. */
  lemma {:induction false} ApartPrefixPasses(segments: seq<Segment>, s: seq<Byte>, p: nat)
    requires !RunsInto(s) && !Occurs(MARK, s) && p <= |s| && s[p..] <= Render(segments)
    ensures PassesAt(segments, 0, s[p..])
    decreases |s| - p
  {
    if p < |s| {
      var rest := Render(segments[1..]);
      assert Render(segments) == Text(segments[0]) + rest;
      assert segments[0].Passed? by {
        if segments[0].Redacted? {
          PrefixesCompare(s[p..], MARK, rest);
          ApartFromMark(s, p, 0);
        }
      }
      assert Render(segments)[1..] == rest && s[p..][0] == Render(segments)[0];
      assert s[p + 1..] == s[p..][1..];
      ApartPrefixPasses(segments[1..], s, p + 1);
      forall k | 0 <= k < |s[p..]| ensures segments[k] == Passed(s[p..][k]) {
        if k > 0 { assert segments[1..][k - 1] == Passed(s[p + 1..][k - 1]); }
      }
    }
  }

  lemma ApartFromMark(s: seq<Byte>, p: nat, k: nat)
    requires !RunsInto(s) && !Occurs(MARK, s) && p < |s| && k < |MARK|
    ensures !(s[p..] <= MARK) && !(MARK <= s[p..]) && !(s <= MARK[k..]) && !(MARK[k..] <= s)
  {
    assert s[0..] == s && MARK[0..] == MARK;
    assert !OccursAt(MARK, k, s) && !OccursAt(MARK, 0, s);
    assert k + |s| <= |MARK| ==> MARK[k..k + |s|] == MARK[k..][..|s|];
    assert |s| <= |MARK| ==> MARK[0..|s|] == MARK[..|s|];
  }

  /** A prefix of a text that starts with `head` is a prefix of `head`, or has it as a prefix. */
  lemma PrefixesCompare(s: seq<Byte>, head: seq<Byte>, tail: seq<Byte>)
    requires s <= head + tail
    ensures s <= head || head <= s
  {
    var text := head + tail;
    if |s| <= |head| {
      assert s == text[..|s|] == head[..|s|];
    } else {
      assert head == text[..|head|] == s[..|head|];
    }
  }

  /** An occurrence that starts inside a piece of text ends inside it, or has the rest of the piece as its beginning. */
  lemma OccurrenceAcross(head: seq<Byte>, tail: seq<Byte>, s: seq<Byte>, k: nat)
    ensures OccursAt(head + tail, k, s) ==>
      if k >= |head| then OccursAt(tail, k - |head|, s) else s <= head[k..] || head[k..] <= s
  {
    var text := head + tail;
    if OccursAt(text, k, s) {
      if k >= |head| {
        assert tail[k - |head|..k - |head| + |s|] == text[k..k + |s|];
      } else {
        assert text[k..] == head[k..] + tail;
        assert s == text[k..][..|s|];
        PrefixesCompare(s, head[k..], tail);
      }
    }
  }

  lemma {:induction false} ApartSecretAbsentAt(secrets: seq<seq<Byte>>, input: seq<Byte>, s: seq<Byte>, k: nat)
    requires s in secrets && s != [] && !RunsInto(s) && !Occurs(MARK, s)
    ensures !OccursAt(Render(Scan(secrets, input)), k, s)
    decreases |input|
  {
    if input != [] {
      var segments := Scan(secrets, input);
      ScanStep(secrets, input);
      var head, tail := Text(segments[0]), Render(segments[1..]);
      if k >= |head| {
        ApartSecretAbsentAt(secrets, input[Advance(secrets, input)..], s, k - |head|);
        OccurrenceAcross(head, tail, s, k);
      } else if segments[0].Passed? {
        assert OccursAt(head + tail, 0, s) ==> PassesAt(segments, 0, s) by {
          if OccursAt(head + tail, 0, s) {
            assert s[0..] == s == (head + tail)[..|s|];
            ApartPrefixPasses(segments, s, 0);
          }
        }
        NoSecretPassesThrough(secrets, input, 0, s);
      } else {
        OccurrenceAcross(MARK, tail, s, k);
        ApartFromMark(s, 0, k);
      }
    }
  }

  /** A secret apart from the mark never appears in the output, whatever the input and the other secrets. */
  lemma ApartSecretAbsent(secrets: seq<seq<Byte>>, input: seq<Byte>, s: seq<Byte>)
    requires s in secrets && s != [] && !RunsInto(s) && !Occurs(MARK, s)
    ensures !Occurs(Render(Scan(secrets, input)), s)
  {
    forall k: nat ensures !OccursAt(Render(Scan(secrets, input)), k, s) { ApartSecretAbsentAt(secrets, input, s, k); }
  }

  /** A secret on its own is replaced by the mark and nothing else. */
  lemma SecretAloneBecomesMark(secrets: seq<seq<Byte>>, s: seq<Byte>)
    requires s in secrets && s != []
    ensures Render(Scan(secrets, s)) == MARK
  {
    LongestMatches(secrets, s, s);
    ScanStep(secrets, s);
    assert s[|s|..] == [];
    assert Scan(secrets, s)[1..] == [];
    assert Render([]) == [];
    assert MARK + [] == MARK;
  }

  /** No input makes the output contain `s`. */
  ghost predicate NeverPrinted(secrets: seq<seq<Byte>>, s: seq<Byte>) {
    forall input :: !Occurs(Render(Scan(secrets, input)), s)
  }

  /** A secret that is never printed does not occur in the mark: redacting it alone prints the mark. */
  lemma NeverPrintedIsNotInMark(secrets: seq<seq<Byte>>, s: seq<Byte>)
    requires s in secrets && s != [] && NeverPrinted(secrets, s)
    ensures !Occurs(MARK, s)
  {
    SecretAloneBecomesMark(secrets, s);
    assert !Occurs(Render(Scan(secrets, s)), s);
  }

  /**
   * The redactor's tests demand that the output never contains a secret. That is false in
   * general, for the mark is output too; a secret that does not run into the mark is absent
   * from the output of every input exactly when it does not occur in the mark.
   */
  lemma SecretNeverInOutputIff(secrets: seq<seq<Byte>>, s: seq<Byte>)
    requires s in secrets && s != [] && !RunsInto(s)
    ensures NeverPrinted(secrets, s) <==> !Occurs(MARK, s)
  {
    if NeverPrinted(secrets, s) { NeverPrintedIsNotInMark(secrets, s); }
    if !Occurs(MARK, s) {
      forall input ensures !Occurs(Render(Scan(secrets, input)), s) { ApartSecretAbsent(secrets, input, s); }
    }
  }

  // A secret that begins as the mark ends.

  /** Too short for the only secret, and padded with a byte that neither begins nor ends it, a text is let through. */
  lemma {:induction false} PaddedPasses(s: seq<Byte>, tail: seq<Byte>, pad: seq<Byte>, c: Byte)
    requires |tail| < |s| && c != s[0] && c != s[|s| - 1] && (forall i | 0 <= i < |pad| :: pad[i] == c)
    requires tail != [] ==> |pad| >= |s|
    ensures Render(Scan([s], tail + pad)) == tail + pad
    decreases |tail| + |pad|
  {
    var input := tail + pad;
    if input != [] {
      NothingMatches(s, tail, pad, c);
      ScanStep([s], input);
      assert input == [input[0]] + input[1..];
      if tail == [] {
        assert input[1..] == [] + pad[1..];
        PaddedPasses(s, [], pad[1..], c);
      } else {
        assert input[1..] == tail[1..] + pad;
        PaddedPasses(s, tail[1..], pad, c);
      }
    }
  }

  lemma NothingMatches(s: seq<Byte>, tail: seq<Byte>, pad: seq<Byte>, c: Byte)
    requires |tail| < |s| && c != s[0] && c != s[|s| - 1] && (forall i | 0 <= i < |pad| :: pad[i] == c)
    requires (tail != [] ==> |pad| >= |s|) && tail + pad != []
    ensures Head([s], tail + pad) == Passed((tail + pad)[0]) && Advance([s], tail + pad) == 1
  {
    var input := tail + pad;
    assert !(s <= input) by {
      assert |input| >= |s| ==> input[|s| - 1] == pad[|s| - 1 - |tail|] == c;
    }
    assert !(input < s) by {
      assert tail == [] ==> input[0] == c;
    }
    assert Longest([s][1..], input) == 0;
  }

  lemma SecretFirst(s: seq<Byte>, rest: seq<Byte>)
    requires s != []
    ensures Render(Scan([s], s + rest)) == MARK + Render(Scan([s], rest))
  {
    var input := s + rest;
    assert Longest([s][1..], input) == 0 && Longest([s], input) == |s|;
    ScanStep([s], input);
    assert input[|s|..] == rest;
  }

  lemma JoinedAcross(mark: seq<Byte>, k: nat, s: seq<Byte>, pad: seq<Byte>)
    requires k < |mark| && mark[k..] <= s
    ensures OccursAt(mark + (s[|mark| - k..] + pad), k, s)
  {
    var text := mark + (s[|mark| - k..] + pad);
    assert text[k..k + |s|] == mark[k..] + s[|mark| - k..];
  }

  function OtherByte(a: Byte, b: Byte): (c: Byte)
    ensures c != a && c != b
  {
    if a != 0 && b != 0 then 0 else if a != 1 && b != 1 then 1 else 2
  }

  /** After the only secret, which begins as the mark ends, its own end is let through: the mark supplies the beginning. */
  lemma EndOfMarkBetrays(s: seq<Byte>, k: nat)
    requires k < |MARK| && MARK[k..] <= s
    ensures !NeverPrinted([s], s)
  {
    var tail, c := s[|MARK| - k..], OtherByte(s[0], s[|s| - 1]);
    var pad := seq(|s|, _ => c);
    SecretFirst(s, tail + pad);
    PaddedPasses(s, tail, pad, c);
    JoinedAcross(MARK, k, s, pad);
    assert Occurs(Render(Scan([s], s + (tail + pad))), s);
  }

  /** Where the only secret has no opening bracket, the condition is exact: it is never printed if and only if it is apart from the mark. */
  lemma SoleSecretNeverInOutputIff(s: seq<Byte>)
    requires s != [] && OPEN_BRACKET !in s
    ensures NeverPrinted([s], s) <==> !RunsInto(s) && !Occurs(MARK, s)
  {
    if !RunsInto(s) {
      SecretNeverInOutputIff([s], s);
    } else {
      forall p | 0 < p < |s| ensures !(s[p..] <= MARK || MARK <= s[p..]) { assert s[p] in s && s[p..][0] == s[p]; }
      var k :| 0 <= k < |MARK| && MARK[k..] < s;
      EndOfMarkBetrays(s, k);
    }
  }

  /** The secret "]x" does not occur in the mark, and yet some input prints it. */
  lemma MarkCompletesSecret()
    ensures var s: seq<Byte> := [CLOSE_BRACKET, 120]; !Occurs(MARK, s) && !NeverPrinted([s], s)
  {
    var s: seq<Byte> := [CLOSE_BRACKET, 120];
    assert MARK[9..] == [CLOSE_BRACKET] && s[..1] == [CLOSE_BRACKET];
    EndOfMarkBetrays(s, 9);
    forall k: nat ensures !OccursAt(MARK, k, s) { assert 120 !in MARK && 120 in s; }
  }

  /** The secret "RED": redacting it prints a mark that contains it. */
  lemma MarkSpellsSecret()
    ensures var red: seq<Byte> := [82, 69, 68]; Occurs(Render(Scan([red], red)), red)
  {
    var red: seq<Byte> := [82, 69, 68];
    SecretAloneBecomesMark([red], red);
    assert OccursAt(MARK, 1, red);
  }
}

/** The incremental writer: it keeps only a possible secret prefix between writes. */
module RedactingWriter {
  import opened Basics
  import opened RedactionScan

  const MAX_SECRETS := 64
  const MAX_SECRET_BYTES := 8192
  const MAX_TOTAL_SECRET_BYTES := 65536
  const FLUSH_BYTES := 16384

  datatype Drained = Drained(out: seq<Segment>, held: seq<Byte>)

  /** What one call of `drain` emits and what it leaves in the buffer. */
  function Drain(secrets: seq<seq<Byte>>, pending: seq<Byte>, final: bool): Drained
    decreases |pending|
  {
    if pending == [] || (AwaitsMore(secrets, pending) && !final) then Drained([], pending)
    else
      var rest := Drain(secrets, pending[Advance(secrets, pending)..], final);
      Drained([Head(secrets, pending)] + rest.out, rest.held)
  }

  /** The only buffers that survive a write: nothing, or a proper prefix of a secret. */
  predicate Resting(secrets: seq<seq<Byte>>, pending: seq<Byte>) {
    pending == [] || AwaitsMore(secrets, pending)
  }

  lemma LongerMatchAwaits(secrets: seq<seq<Byte>>, pending: seq<Byte>, rest: seq<Byte>)
    ensures Longest(secrets, pending + rest) > |pending| ==> AwaitsMore(secrets, pending)
  {
    var m := Longest(secrets, pending + rest);
    LongestMatches(secrets, pending + rest, []);
    assert m > |pending| ==> pending < (pending + rest)[..m];
  }

  /** A buffer that waits for no secret decides its first segment as the whole input would. */
  lemma HeadIsStable(secrets: seq<seq<Byte>>, pending: seq<Byte>, rest: seq<Byte>)
    requires pending != [] && !AwaitsMore(secrets, pending)
    ensures Head(secrets, pending + rest) == Head(secrets, pending)
    ensures Advance(secrets, pending + rest) == Advance(secrets, pending)
  {
    var whole := pending + rest;
    var m, n := Longest(secrets, pending), Longest(secrets, whole);
    assert !AwaitsMore(secrets, whole) by {
      assert forall s | s in secrets :: whole < s ==> pending < s;
    }
    LongestMatches(secrets, pending, whole[..n]);
    LongestMatches(secrets, whole, pending[..m]);
    assert whole[..m] == pending[..m];
    LongerMatchAwaits(secrets, pending, rest);
    assert whole[..n] == pending[..n];
  }

  /** Draining before the rest of the input is known loses nothing against the batch scan. */
  lemma {:induction false} DrainRefinesScan(secrets: seq<seq<Byte>>, pending: seq<Byte>, rest: seq<Byte>)
    ensures var d := Drain(secrets, pending, false);
            Resting(secrets, d.held) && Scan(secrets, pending + rest) == d.out + Scan(secrets, d.held + rest)
    decreases |pending|
  {
    if pending != [] && !AwaitsMore(secrets, pending) {
      var n := Advance(secrets, pending);
      HeadIsStable(secrets, pending, rest);
      assert (pending + rest)[n..] == pending[n..] + rest;
      DrainRefinesScan(secrets, pending[n..], rest);
    }
  }

  lemma {:induction false} FinalDrainIsScan(secrets: seq<seq<Byte>>, pending: seq<Byte>)
    ensures Drain(secrets, pending, true) == Drained(Scan(secrets, pending), [])
    decreases |pending|
  {
    if pending != [] { FinalDrainIsScan(secrets, pending[Advance(secrets, pending)..]); }
  }

  datatype WriteResult = Written(n: nat) | ClosedPipe

  function TotalBytes(secrets: seq<seq<Byte>>): nat {
    if secrets == [] then 0 else TotalBytes(secrets[..|secrets| - 1]) + |secrets[|secrets| - 1]|
  }

  /** The bounds that `newRedactingWriter` checks. */
  predicate Bounded(secrets: seq<seq<Byte>>) {
    |secrets| <= MAX_SECRETS && TotalBytes(secrets) <= MAX_TOTAL_SECRET_BYTES &&
    forall s | s in secrets :: 0 < |s| <= MAX_SECRET_BYTES
  }

  lemma {:induction false} TotalGrows(secrets: seq<seq<Byte>>, i: nat)
    requires i <= |secrets|
    ensures TotalBytes(secrets[..i]) <= TotalBytes(secrets)
    decreases |secrets|
  {
    if i == |secrets| {
      assert secrets[..i] == secrets;
    } else {
      TotalGrows(secrets[..|secrets| - 1], i);
      assert secrets[..|secrets| - 1][..i] == secrets[..i];
    }
  }

  /** The loop of `newRedactingWriter`, which stops at the first value out of bounds. */
  method CheckBounds(secrets: seq<seq<Byte>>) returns (ok: bool)
    ensures ok <==> Bounded(secrets)
  {
    if |secrets| > MAX_SECRETS { return false; }
    var total := 0;
    for i := 0 to |secrets|
      invariant total == TotalBytes(secrets[..i]) <= MAX_TOTAL_SECRET_BYTES
      invariant forall k | 0 <= k < i :: 0 < |secrets[k]| <= MAX_SECRET_BYTES
    {
      assert secrets[..i + 1][..i] == secrets[..i];
      total := total + |secrets[i]|;
      if |secrets[i]| == 0 || |secrets[i]| > MAX_SECRET_BYTES || total > MAX_TOTAL_SECRET_BYTES {
        TotalGrows(secrets, i + 1);
        assert secrets[i] in secrets;
        return false;
      }
    }
    assert secrets[..|secrets|] == secrets;
    return true;
  }

  /** The matching loop of `drain`: the longest secret at the front, and whether a longer one may follow. */
  method MatchFront(secrets: seq<seq<Byte>>, pending: seq<Byte>) returns (longest: nat, prefix: bool)
    ensures longest == Longest(secrets, pending)
    ensures prefix <==> AwaitsMore(secrets, pending)
  {
    longest, prefix := 0, false;
    for i := 0 to |secrets|
      invariant prefix ==> AwaitsMore(secrets, pending)
      invariant !prefix ==> forall k | 0 <= k < i :: !(pending < secrets[k])
      invariant forall k | 0 <= k < i && secrets[k] <= pending :: |secrets[k]| <= longest
      invariant longest > 0 ==> exists k | 0 <= k < i :: secrets[k] <= pending && |secrets[k]| == longest
    {
      if pending < secrets[i] {
        assert secrets[i] in secrets;
        prefix := true;
      }
      if secrets[i] <= pending && longest < |secrets[i]| { longest := |secrets[i]|; }
    }
    LongestIsLongest(secrets, pending);
  }

  /** The segments decided and the bytes still held after the writes of `input`, byte by byte. */
  function Feed(secrets: seq<seq<Byte>>, input: seq<Byte>): Drained {
    if input == [] then Drained([], [])
    else
      var before := Feed(secrets, input[..|input| - 1]);
      var step := Drain(secrets, before.held + [input[|input| - 1]], false);
      Drained(before.out + step.out, step.held)
  }

  /** One more byte: the decided segments grow by what the drain of the held bytes emits. */
  lemma FeedByte(secrets: seq<seq<Byte>>, input: seq<Byte>, b: Byte)
    ensures var before := Feed(secrets, input);
            var step := Drain(secrets, before.held + [b], false);
            Feed(secrets, input + [b]) == Drained(before.out + step.out, step.held) &&
            Render(before.out + step.out) == Render(before.out) + Render(step.out)
  {
    assert (input + [b])[..|input|] == input;
    var before := Feed(secrets, input);
    RenderConcat(before.out, Drain(secrets, before.held + [b], false).out);
  }

  lemma DrainByteRefines(secrets: seq<seq<Byte>>, out: seq<Segment>, held: seq<Byte>, b: Byte, rest: seq<Byte>)
    ensures var step := Drain(secrets, held + [b], false);
            Resting(secrets, step.held) &&
            (out + step.out) + Scan(secrets, step.held + rest) == out + Scan(secrets, held + ([b] + rest))
  {
    DrainRefinesScan(secrets, held + [b], rest);
    assert (held + [b]) + rest == held + ([b] + rest);
  }

  /** The decided segments and a scan of the held bytes give `whole`, whatever follows the held bytes. */
  predicate Completes(secrets: seq<seq<Byte>>, d: Drained, rest: seq<Byte>, whole: seq<Segment>) {
    d.out + Scan(secrets, d.held + rest) == whole
  }

  lemma DrainCompletes(secrets: seq<seq<Byte>>, before: Drained, b: Byte, rest: seq<Byte>, whole: seq<Segment>)
    requires Completes(secrets, before, [b] + rest, whole)
    ensures var step := Drain(secrets, before.held + [b], false);
            Resting(secrets, step.held) && Completes(secrets, Drained(before.out + step.out, step.held), rest, whole)
  {
    DrainByteRefines(secrets, before.out, before.held, b, rest);
  }

  lemma ByteMoves(init: seq<Byte>, b: Byte, rest: seq<Byte>)
    ensures init + ([b] + rest) == (init + [b]) + rest
  {
  }

  lemma {:induction false} FeedCompletes(secrets: seq<seq<Byte>>, input: seq<Byte>, rest: seq<Byte>)
    ensures Resting(secrets, Feed(secrets, input).held)
    ensures Completes(secrets, Feed(secrets, input), rest, Scan(secrets, input + rest))
  {
    if input == [] {
      assert [] + rest == rest;
    } else {
      var init, b := input[..|input| - 1], input[|input| - 1];
      assert input == init + [b];
      FeedCompletes(secrets, init, [b] + rest);
      ByteMoves(init, b, rest);
      DrainCompletes(secrets, Feed(secrets, init), b, rest, Scan(secrets, input + rest));
      FeedByte(secrets, init, b);
    }
  }

  /** After any input: what was decided, completed by a scan of the held bytes, is the batch scan. */
  lemma FeedRefinesScan(secrets: seq<seq<Byte>>, input: seq<Byte>, rest: seq<Byte>)
    ensures var d := Feed(secrets, input);
            Resting(secrets, d.held) && d.out + Scan(secrets, d.held + rest) == Scan(secrets, input + rest)
  {
    FeedCompletes(secrets, input, rest);
  }

  /** The buffer is bounded by the longest secret: never an entire line is retained. */
  lemma BufferStaysSmall(secrets: seq<seq<Byte>>, input: seq<Byte>)
    requires Bounded(secrets)
    ensures |Feed(secrets, input).held| < MAX_SECRET_BYTES
  {
    FeedRefinesScan(secrets, input, []);
  }

  lemma ConcatAssociative(a: seq<Byte>, b: seq<Byte>, c: seq<Byte>)
    ensures a + (b + c) == (a + b) + c
  {
  }

  lemma PrefixGrows(before: seq<Byte>, p: seq<Byte>, i: nat)
    requires i < |p|
    ensures before + p[..i + 1] == (before + p[..i]) + [p[i]]
  {
  }

  /** `redactingWriter` over a target that accepts everything written to it. */
  class Writer {
    var target: seq<Byte>
    var secrets: seq<seq<Byte>>
    var pending: seq<Byte>
    var closed: bool
    ghost var original: seq<seq<Byte>>  // the secrets given to the constructor; never cleared
    ghost var input: seq<Byte>          // everything written so far

    ghost predicate Valid()
      reads this
    {
      if closed then secrets == [] && pending == [] && target == Render(Scan(original, input))
      else
        secrets == original &&
        target == Render(Feed(secrets, input).out) && pending == Feed(secrets, input).held
    }

    constructor (values: seq<seq<Byte>>)
      requires Bounded(values)
      ensures Valid() && !closed && original == values && input == [] && target == []
    {
      target, secrets, pending, closed := [], values, [], false;
      original, input := values, [];
    }

    /** Emits the decided part of the buffer. */
    method DrainBuffer(final: bool) returns (out: seq<Byte>)
      modifies this`pending
      ensures var d := Drain(secrets, old(pending), final);
              out == Render(d.out) && pending == d.held
    {
      out := [];
      ghost var segments := [];
      ghost var whole := Drain(secrets, pending, final);
      while pending != []
        invariant out == Render(segments)
        invariant whole == Drained(segments + Drain(secrets, pending, final).out, Drain(secrets, pending, final).held)
        decreases |pending|
      {
        var longest, prefix := MatchFront(secrets, pending);
        if prefix && !final { break; }
        var n := if longest > 0 then longest else if prefix then |pending| else 1;
        DrainStep(secrets, segments, pending, final);
        out := out + if longest > 0 || prefix then MARK else [pending[0]];
        segments := segments + [Head(secrets, pending)];
        pending := pending[n..];
      }
      assert whole.out == segments;
    }

    /** Between two bytes of a write: `output` is decided but not yet sent to the target. */
    ghost predicate Sending(output: seq<Byte>)
      reads this
    {
      secrets == original &&
      target + output == Render(Feed(secrets, input).out) && pending == Feed(secrets, input).held
    }

    /** Appends one byte to the buffer and drains it. */
    method PushByte(b: Byte, output: seq<Byte>) returns (out: seq<Byte>)
      requires Sending(output)
      modifies this`pending, this`input
      ensures input == old(input) + [b] && Sending(output + out)
    {
      FeedByte(secrets, input, b);
      pending := pending + [b];
      out := DrainBuffer(false);
      input := input + [b];
      ConcatAssociative(target, output, out);
    }

    /** Takes `p` byte by byte; the target receives the output in batches. */
    method Write(p: seq<Byte>) returns (r: WriteResult)
      requires Valid()
      modifies this`target, this`pending, this`input
      ensures Valid()
      ensures r == if closed then ClosedPipe else Written(|p|)
      ensures input == if closed then old(input) else old(input) + p
      ensures closed ==> target == old(target)
    {
      if closed { return ClosedPipe; }
      var output := [];
      assert target + output == target;
      for i := 0 to |p|
        invariant Sending(output)
        invariant input == old(input) + p[..i]
      {
        var out := PushByte(p[i], output);
        PrefixGrows(old(input), p, i);
        output := output + out;
        if |output| >= FLUSH_BYTES { output := Flush(output); }
      }
      var rest := Flush(output);
      assert p[..|p|] == p;
      return Written(|p|);
    }

    method Flush(output: seq<Byte>) returns (rest: seq<Byte>)
      requires Sending(output)
      modifies this`target
      ensures Sending([]) && rest == [] && target == old(target) + output
    {
      target, rest := target + output, [];
      assert target + rest == target;
    }

    /** Ends the stream: however the input was split, the target now holds the scan of all of it. */
    method Close()
      requires Valid()
      modifies this
      ensures Valid() && closed
      ensures input == old(input) && original == old(original)
      ensures target == Render(Scan(original, input))
    {
      if closed { return; }
      closed := true;
      ghost var before := Feed(secrets, input);
      var output := DrainBuffer(true);
      CloseCompletesScan(secrets, input);
      target := target + output;
      secrets, pending := [], [];
    }
  }

  /** One turn of the drain loop moves the first segment from what is to come to what was emitted. */
  lemma DrainStep(secrets: seq<seq<Byte>>, segments: seq<Segment>, pending: seq<Byte>, final: bool)
    requires pending != [] && (final || !AwaitsMore(secrets, pending))
    ensures var head, rest := Head(secrets, pending), Drain(secrets, pending[Advance(secrets, pending)..], final);
            segments + Drain(secrets, pending, final).out == (segments + [head]) + rest.out &&
            Drain(secrets, pending, final).held == rest.held &&
            Render(segments + [head]) == Render(segments) + Text(head)
  {
    var head := Head(secrets, pending);
    RenderOneMore(segments, head);
    MoveHead(segments, head, Drain(secrets, pending[Advance(secrets, pending)..], final).out);
  }

  lemma RenderOneMore(segments: seq<Segment>, head: Segment)
    ensures Render(segments + [head]) == Render(segments) + Text(head)
  {
    RenderConcat(segments, [head]);
    assert Render([head]) == Text(head) + Render([]);
  }

  lemma MoveHead(segments: seq<Segment>, head: Segment, rest: seq<Segment>)
    ensures segments + ([head] + rest) == (segments + [head]) + rest
  {
  }

  /** The final drain emits exactly what is missing from the scan of the whole input. */
  lemma CloseCompletesScan(secrets: seq<seq<Byte>>, input: seq<Byte>)
    ensures var d := Feed(secrets, input);
            Render(d.out) + Render(Drain(secrets, d.held, true).out) == Render(Scan(secrets, input))
  {
    var d := Feed(secrets, input);
    FeedRefinesScan(secrets, input, []);
    FinalDrainIsScan(secrets, d.held);
    assert d.held + [] == d.held && input + [] == input;
    RenderConcat(d.out, Scan(secrets, d.held));
  }
}
