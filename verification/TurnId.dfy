/** Wire turn ids: `loop_id:generation` (turn_boundary.go). */
module TurnId {
  import opened Text

  const MAX_INT := 0x7fff_ffff_ffff_ffff

  /** Go's 64-bit int. */
  type Int = x: int | -MAX_INT - 1 <= x <= MAX_INT

  /** strconv.Itoa on the non-negative numbers. */
  function Itoa(n: nat): string {
    if n < 10 then [Digit(n)] else Itoa(n / 10) + [Digit(n % 10)]
  }

  function Digit(d: nat): char
    requires d < 10
  {
    '0' + d as char
  }

  predicate Digits(s: string) {
    s != [] && forall i :: 0 <= i < |s| ==> '0' <= s[i] <= '9'
  }

  function DecimalValue(s: string): nat
    requires forall i :: 0 <= i < |s| ==> '0' <= s[i] <= '9'
  {
    if s == [] then 0
    else 10 * DecimalValue(s[..|s| - 1]) + (s[|s| - 1] - '0') as int
  }

  datatype Parsed = Number(value: Int) | Malformed

  /** strconv.Atoi: an optional sign, then decimal digits, within the range of int. */
  function Atoi(s: string): Parsed {
    var signed := s != [] && (s[0] == '+' || s[0] == '-');
    var body := if signed then s[1..] else s;
    if !Digits(body) then Malformed
    else
      var magnitude: int := DecimalValue(body);
      var v := if signed && s[0] == '-' then -magnitude else magnitude;
      if -MAX_INT - 1 <= v <= MAX_INT then Number(v) else Malformed
  }

  function FormatTurnID(loopID: string, generation: Int): string {
    var lid := TrimSpace(loopID);
    if lid == "" || generation <= 0 then "" else lid + ":" + Itoa(generation)
  }

  /** A valid generation, or -1. */
  type Generation = g: Int | g == -1 || g > 0 witness -1

  function ParseTurnGeneration(turnID: string): Generation {
    var raw := TrimSpace(turnID);
    if raw == "" || ':' !in raw then -1
    else
      var parts := Split(raw, ':');
      var gen := Atoi(parts[|parts| - 1]);
      if gen.Malformed? || gen.value <= 0 then -1 else gen.value
  }

  predicate TurnIDsMatch(expected: string, candidate: string) {
    var exp := TrimSpace(expected);
    var cand := TrimSpace(candidate);
    exp != "" && cand != "" && exp == cand
  }

  /** A turn as its id names it: blank ids name none, and surrounding white space is ignored. */
  datatype Turn = NoTurn | Turn(id: string, gen: Generation)

  function TurnOf(turnID: string): Turn {
    if Blank(turnID) then NoTurn else Turn(TrimSpace(turnID), ParseTurnGeneration(turnID))
  }

  /** Ids match exactly when they name the same turn. */
  lemma MatchIsSameTurn(expected: string, candidate: string)
    ensures TurnIDsMatch(expected, candidate) <==> TurnOf(expected) == TurnOf(candidate) != NoTurn
  {
    TrimTwice(expected);
    TrimTwice(candidate);
  }

  lemma TurnOfTrimmed(turnID: string)
    requires Trimmed(turnID)
    ensures TurnOf(turnID) == if turnID == "" then NoTurn else Turn(turnID, ParseTurnGeneration(turnID))
  {
    TrimOfTrimmed(turnID);
  }

  lemma {:induction false} ItoaDigits(n: nat)
    ensures Digits(Itoa(n)) && DecimalValue(Itoa(n)) == n
  {
    if n >= 10 {
      ItoaDigits(n / 10);
      assert Itoa(n)[..|Itoa(n)| - 1] == Itoa(n / 10);
    }
  }

  /** Parsing undoes formatting: every positive generation of a non-blank loop id comes back,
      whatever colons the loop id holds; the other inputs format to an unparsable id. */
  lemma GenerationRoundTrip(loopID: string, generation: Int)
    ensures ParseTurnGeneration(FormatTurnID(loopID, generation))
         == if Blank(loopID) || generation <= 0 then -1 else generation
  {
    var lid := TrimSpace(loopID);
    if lid != "" && generation > 0 {
      var digits := Itoa(generation);
      var id := lid + [':'] + digits;
      assert FormatTurnID(loopID, generation) == id;
      ItoaDigits(generation);
      TrimTwice(loopID);
      TrimOfTrimmed(id);
      SplitJoin(lid, digits, ':');
      SplitSingle(digits, ':');
    }
  }

  /** The generation of an id is read off what follows its last colon. */
  lemma LastPart(lid: string, last: string)
    requires ':' !in last && Trimmed(last)
    ensures var gen := Atoi(last);
            ParseTurnGeneration(lid + [':'] + last) == (if gen.Malformed? || gen.value <= 0 then -1 else gen.value)
  {
    hide Atoi;
    var id := TrimLeft(lid) + [':'] + last;
    assert lid + ([':'] + last) == lid + [':'] + last && TrimLeft(lid) + ([':'] + last) == id;
    LeadingSpace(lid, [':'] + last);
    LeftIsTrimmed(lid);
    assert Trimmed(id);
    TrimOfTrimmed(id);
    assert TrimSpace(lid + [':'] + last) == id;
    SplitJoin(TrimLeft(lid), last, ':');
    SplitSingle(last, ':');
  }

  lemma SignedAtoi(n: Int)
    requires n > 0
    ensures Atoi("+" + Itoa(n)) == Number(n) && Atoi("-" + Itoa(n)) == Number(-n)
  {
    ItoaDigits(n);
    assert ("+" + Itoa(n))[1..] == Itoa(n) == ("-" + Itoa(n))[1..];
  }

  lemma SignedTrimmed(n: nat, sign: char)
    requires sign in {'+', '-'}
    ensures Trimmed([sign] + Itoa(n)) && ':' !in [sign] + Itoa(n)
  {
    ItoaDigits(n);
    var s := [sign] + Itoa(n);
    assert forall i :: 0 < i < |s| ==> '0' <= s[i] <= '9';
  }

  /** What else can follow the last colon: a plus sign is allowed, a minus sign is not, and text that is
      no number gives no generation; neither does an id without a colon. */
  lemma OtherGenerations(lid: string, n: Int, text: string)
    requires n > 0 && ':' !in text && Trimmed(text)
    ensures ParseTurnGeneration(lid + [':'] + ("+" + Itoa(n))) == n
    ensures ParseTurnGeneration(lid + [':'] + ("-" + Itoa(n))) == -1
    ensures Atoi(text) == Malformed ==> ParseTurnGeneration(lid + [':'] + text) == -1
    ensures ParseTurnGeneration(text) == -1
  {
    assert ParseTurnGeneration(text) == -1 by {
      TrimOfTrimmed(text);
    }
    hide Atoi, ParseTurnGeneration, Itoa;
    SignedAtoi(n);
    SignedTrimmed(n, '+');
    SignedTrimmed(n, '-');
    LastPart(lid, "+" + Itoa(n));
    LastPart(lid, "-" + Itoa(n));
    LastPart(lid, text);
  }

  /** A formatted id determines the trimmed loop id and the generation. */
  lemma FormatInjective(l1: string, g1: Int, l2: string, g2: Int)
    requires FormatTurnID(l1, g1) == FormatTurnID(l2, g2) != ""
    ensures TrimSpace(l1) == TrimSpace(l2) && g1 == g2
  {
    GenerationRoundTrip(l1, g1);
    GenerationRoundTrip(l2, g2);
    var id := FormatTurnID(l1, g1);
    var k := |id| - |Itoa(g1)| - 1;
    assert TrimSpace(l1) == id[..k] == TrimSpace(l2);
  }
}
