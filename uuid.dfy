/** The state nonce generator `generateUuid`: it fills a fixed version-4 UUID
    template in place, one placeholder at a time, from a stream of random draws. */
module Uuid {

  /** The template character at position `i`: `x` takes a random nibble, `y`
      the variant nibble, and the hyphens and the version digit stay. */
  function TemplateAt(i: nat): char {
    if i == 8 || i == 13 || i == 18 || i == 23 then '-'
    else if i == 14 then '4'
    else if i == 19 then 'y'
    else 'x'
  }

  /** The template the generator splits into characters. */
  const Template: string := "xxxxxxxx-xxxx-4xxx-yxxx-xxxxxxxxxxxx"

  /** TemplateAt describes the template. */
  lemma TemplateIs()
    ensures |Template| == 36
    ensures forall i :: 0 <= i < |Template| ==> Template[i] == TemplateAt(i)
  {
  }

  /** Number of random draws one identifier consumes (30 `x` and one `y`). */
  const DrawCount: nat := 31

  /** Position in the draw stream of the draw that fills `y`. */
  const VariantDraw: nat := 15

  predicate IsPlaceholder(c: char) {
    c == 'x' || c == 'y'
  }

  /** How many placeholders precede template position `i`, that is, how many
      draws the loop has consumed when it reaches `i`. */
  function DrawsBefore(i: nat): nat
    requires i <= 36
  {
    if i == 0 then 0
    else DrawsBefore(i - 1) + (if IsPlaceholder(TemplateAt(i - 1)) then 1 else 0)
  }

  /** `i` less the number of fixed characters before position `i`. */
  function FixedBefore(i: nat): nat {
    if i <= 8 then i
    else if i <= 13 then i - 1
    else if i == 14 then i - 2
    else if i <= 18 then i - 3
    else if i <= 23 then i - 4
    else i - 5
  }

  /** DrawsBefore in closed form: every fixed character shifts the count by one. */
  lemma {:induction false} DrawsBeforeClosedForm(i: nat)
    requires i <= 36
    ensures DrawsBefore(i) == FixedBefore(i)
  {
    if i > 0 {
      DrawsBeforeClosedForm(i - 1);
    }
  }

  /** The one-digit result of `Number.prototype.toString(16)`. */
  function HexDigit(n: nat): (c: char)
    requires n < 16
    ensures IsHexDigit(c)
  {
    if n < 10 then ('0' as int + n) as char else ('a' as int + n - 10) as char
  }

  predicate IsHexDigit(c: char) {
    '0' <= c <= '9' || 'a' <= c <= 'f'
  }

  /** The value of a lower-case hex digit. */
  function HexValue(c: char): (n: nat)
    requires IsHexDigit(c)
    ensures n < 16 && HexDigit(n) == c
  {
    if c <= '9' then c as int - '0' as int else c as int - 'a' as int + 10
  }

  /** What a stream of `Math.floor(Math.random() * 16)` draws, with the one
      draw for `y` taken as `Math.floor(Math.random() * 4)`, can hold. */
  predicate ValidDraws(draws: seq<int>) {
    |draws| == DrawCount &&
    forall k :: 0 <= k < |draws| ==> 0 <= draws[k] < (if k == VariantDraw then 4 else 16)
  }

  /** The character the generator leaves at position `i`. */
  function CharAt(draws: seq<int>, i: nat): char
    requires ValidDraws(draws) && i < 36
  {
    DrawsBeforeClosedForm(i);
    match TemplateAt(i)
    case 'x' => HexDigit(draws[DrawsBefore(i)])
    case 'y' => HexDigit(draws[DrawsBefore(i)] + 8)
    case c => c
  }

  /** The identifier built from `draws`, position by position; it always has
      the UUID layout. */
  function FromDraws(draws: seq<int>): (id: string)
    requires ValidDraws(draws)
    ensures WellShaped(id)
  {
    var id := seq(36, i requires 0 <= i < 36 => CharAt(draws, i));
    DrawsBeforeClosedForm(19);
    assert id[19] == HexDigit(draws[VariantDraw] + 8);
    id
  }

  /** The textual layout of a version-4, variant-1 UUID in lower-case hex. */
  predicate WellShaped(id: string) {
    |id| == 36 &&
    id[8] == '-' && id[13] == '-' && id[18] == '-' && id[23] == '-' &&
    id[14] == '4' &&
    id[19] in {'8', '9', 'a', 'b'} &&
    forall i :: 0 <= i < |id| && i != 8 && i != 13 && i != 18 && i != 23 ==> IsHexDigit(id[i])
  }

  /** Which template position the draw `k` of the stream fills. */
  function PositionOf(k: nat): (i: nat)
    requires k < DrawCount
    ensures i < 36 && IsPlaceholder(TemplateAt(i)) && DrawsBefore(i) == k
  {
    var i := if k < 8 then k
             else if k < 12 then k + 1
             else if k < 15 then k + 3
             else if k < 19 then k + 4
             else k + 5;
    DrawsBeforeClosedForm(i);
    i
  }

  /** Reads the draws back out of an identifier. */
  function DrawsOf(id: string): (draws: seq<int>)
    requires WellShaped(id)
    ensures ValidDraws(draws)
  {
    seq(DrawCount, k requires 0 <= k < DrawCount =>
      if k == VariantDraw then HexValue(id[PositionOf(k)]) - 8 else HexValue(id[PositionOf(k)]))
  }

  /** The draws can be read back from the identifier: distinct draw streams
      give distinct nonces. */
  lemma DrawsOfUuid(draws: seq<int>)
    requires ValidDraws(draws)
    ensures DrawsOf(FromDraws(draws)) == draws
  {
    var back := DrawsOf(FromDraws(draws));
    forall k | 0 <= k < DrawCount
      ensures back[k] == draws[k]
    {
      var i := PositionOf(k);
      assert FromDraws(draws)[i] == CharAt(draws, i);
    }
  }

  /** Conversely, every string with the UUID layout is one the generator can build. */
  lemma UuidOfDraws(id: string)
    requires WellShaped(id)
    ensures FromDraws(DrawsOf(id)) == id
  {
    var draws := DrawsOf(id);
    forall i | 0 <= i < 36
      ensures FromDraws(draws)[i] == id[i]
    {
      DrawsBeforeClosedForm(i);
      if IsPlaceholder(TemplateAt(i)) {
        var k := DrawsBefore(i);
        assert PositionOf(k) == i;
      }
    }
  }

  /** What the loop needs at position `i`: the character to write there and
      how the draw count moves on. */
  lemma FillStep(draws: seq<int>, i: nat)
    requires ValidDraws(draws) && i < 36
    ensures DrawsBefore(i + 1) == DrawsBefore(i) + (if IsPlaceholder(TemplateAt(i)) then 1 else 0)
    ensures TemplateAt(i) == 'x' ==> DrawsBefore(i) < DrawCount && DrawsBefore(i) != VariantDraw &&
                                     CharAt(draws, i) == HexDigit(draws[DrawsBefore(i)])
    ensures TemplateAt(i) == 'y' ==> DrawsBefore(i) == VariantDraw &&
                                     CharAt(draws, i) == HexDigit(draws[VariantDraw] + 8)
    ensures !IsPlaceholder(TemplateAt(i)) ==> CharAt(draws, i) == TemplateAt(i)
  {
    DrawsBeforeClosedForm(i);
  }

  /** The loop state after position `i`: the first `i` characters are final,
      the rest still hold the template. */
  predicate Filled(chars: seq<char>, draws: seq<int>, i: nat)
    requires ValidDraws(draws)
  {
    |chars| == 36 && i <= 36 &&
    (forall k :: 0 <= k < i ==> chars[k] == CharAt(draws, k)) &&
    (forall k :: i <= k < 36 ==> chars[k] == TemplateAt(k))
  }

  /** Writing CharAt at position `i` moves the loop state on by one. */
  lemma FilledStep(chars: seq<char>, draws: seq<int>, i: nat)
    requires ValidDraws(draws) && i < 36 && Filled(chars, draws, i)
    ensures Filled(chars[i := CharAt(draws, i)], draws, i + 1)
  {
  }

  /** The final loop state is the generated identifier. */
  lemma FilledDone(chars: seq<char>, draws: seq<int>)
    requires ValidDraws(draws) && Filled(chars, draws, 36)
    ensures chars == FromDraws(draws)
  {
  }

  /** `generateUuid`: split the template into a character array, overwrite each
      placeholder with the next draw rendered in hex, and join the array. */
  method GenerateUuid(draws: seq<int>) returns (id: string)
    requires ValidDraws(draws)
    ensures id == FromDraws(draws)
    ensures WellShaped(id)
  {
    TemplateIs();
    var chars := new char[|Template|](i requires 0 <= i < |Template| => Template[i]);
    var next := 0;  // how many draws the loop has taken from the stream
    for i := 0 to chars.Length
      invariant next == DrawsBefore(i)
      invariant Filled(chars[..], draws, i)
    {
      FillStep(draws, i);
      ghost var before := chars[..];
      FilledStep(before, draws, i);
      assert chars[i] == TemplateAt(i);
      if chars[i] == 'x' {
        chars[i] := HexDigit(draws[next]);
        next := next + 1;
      } else if chars[i] == 'y' {
        chars[i] := HexDigit(draws[next] + 8);
        next := next + 1;
      }
      assert chars[..] == before[i := CharAt(draws, i)];
    }
    id := chars[..];
    FilledDone(id, draws);
  }
}
