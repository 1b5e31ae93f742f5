/** `key=value` fields joined with `&`: the layout of the authorize URL's query
    string and of the application/x-www-form-urlencoded grant bodies. Decode
    only splits (at `&`, then at the first `=`); unlike a full form decoder it
    neither turns `+` into a space nor undoes percent-encoding. */
module Form {

  type Field = (string, string)

  function Pair(f: Field): string {
    f.0 + "=" + f.1
  }

  /** The fields in order, joined with `&`. */
  function Encode(fields: seq<Field>): string {
    if fields == [] then ""
    else if |fields| == 1 then Pair(fields[0])
    else Pair(fields[0]) + "&" + Encode(fields[1..])
  }

  /** The first position of `c` in `s`. */
  function IndexOf(s: string, c: char): (i: nat)
    requires c in s
    ensures i < |s| && s[i] == c && c !in s[..i]
  {
    if s[0] == c then 0
    else
      var j := IndexOf(s[1..], c);
      assert s[..j + 1] == [s[0]] + s[1..][..j];
      j + 1
  }

  /** The segments of `s` between occurrences of `sep`; never empty. */
  function Split(s: string, sep: char): (parts: seq<string>)
    ensures |parts| >= 1
    decreases |s|
  {
    if sep in s then
      var i := IndexOf(s, sep);
      [s[..i]] + Split(s[i + 1..], sep)
    else [s]
  }

  /** A segment read as a field: up to the first `=` is the key, the rest the
      value; a segment without `=` has the empty value. */
  function FieldOf(segment: string): Field {
    if '=' in segment then
      var i := IndexOf(segment, '=');
      (segment[..i], segment[i + 1..])
    else (segment, "")
  }

  function FieldsOf(segments: seq<string>): (fields: seq<Field>)
    ensures |fields| == |segments|
  {
    if segments == [] then [] else [FieldOf(segments[0])] + FieldsOf(segments[1..])
  }

  function Decode(s: string): seq<Field> {
    if s == "" then [] else FieldsOf(Split(s, '&'))
  }

  /** A field survives the round trip when its key holds neither delimiter and
      its value holds no `&`. */
  predicate Plain(f: Field) {
    '&' !in f.0 && '=' !in f.0 && '&' !in f.1
  }

  predicate AllPlain(fields: seq<Field>) {
    forall i :: 0 <= i < |fields| ==> Plain(fields[i])
  }

  lemma SplitAfter(p: string, rest: string, sep: char)
    requires sep !in p
    ensures Split(p + [sep] + rest, sep) == [p] + Split(rest, sep)
  {
    var s := p + [sep] + rest;
    assert s[|p|] == sep;
    var i := IndexOf(s, sep);
    assert s[..i] == p;
    assert s[i + 1..] == rest;
  }

  lemma FieldOfPair(f: Field)
    requires '=' !in f.0
    ensures FieldOf(Pair(f)) == f
  {
    var s := Pair(f);
    assert s[|f.0|] == '=';
    var i := IndexOf(s, '=');
    assert s[..i] == f.0;
    assert s[i + 1..] == f.1;
  }

  /** Splitting an encoding at `&` gives back one segment per field. */
  lemma {:induction false} SplitEncode(fields: seq<Field>)
    requires fields != [] && AllPlain(fields)
    ensures Split(Encode(fields), '&') == seq(|fields|, i requires 0 <= i < |fields| => Pair(fields[i]))
  {
    assert Plain(fields[0]);
    var head := Pair(fields[0]);
    assert '&' !in head by {
      forall k | 0 <= k < |head| ensures head[k] != '&' {
        if k < |fields[0].0| {
          assert head[k] == fields[0].0[k];
        } else if k > |fields[0].0| {
          assert head[k] == fields[0].1[k - |fields[0].0| - 1];
        }
      }
    }
    if |fields| == 1 {
    } else {
      var rest := fields[1..];
      assert AllPlain(rest) by {
        forall i | 0 <= i < |rest| ensures Plain(rest[i]) {
          assert rest[i] == fields[i + 1];
        }
      }
      SplitEncode(rest);
      SplitAfter(head, Encode(rest), '&');
      assert Encode(fields) == head + ['&'] + Encode(rest);
    }
  }

  lemma {:induction false} FieldsOfPairs(fields: seq<Field>)
    requires AllPlain(fields)
    ensures FieldsOf(seq(|fields|, i requires 0 <= i < |fields| => Pair(fields[i]))) == fields
  {
    var segments := seq(|fields|, i requires 0 <= i < |fields| => Pair(fields[i]));
    if fields != [] {
      assert Plain(fields[0]);
      FieldOfPair(fields[0]);
      var rest := fields[1..];
      assert AllPlain(rest) by {
        forall i | 0 <= i < |rest| ensures Plain(rest[i]) {
          assert rest[i] == fields[i + 1];
        }
      }
      FieldsOfPairs(rest);
      assert segments[1..] == seq(|rest|, i requires 0 <= i < |rest| => Pair(rest[i]));
    }
  }

  /** Appending a field to a non-empty encoding appends `&key=value`. */
  lemma {:induction false} EncodeSnoc(fields: seq<Field>, f: Field)
    requires fields != []
    ensures Encode(fields + [f]) == Encode(fields) + ("&" + f.0 + "=") + f.1
  {
    if |fields| == 1 {
      assert fields + [f] == [fields[0], f];
      assert Encode([fields[0], f]) == Pair(fields[0]) + "&" + Encode([f]);
    } else {
      EncodeSnoc(fields[1..], f);
      assert (fields + [f])[1..] == fields[1..] + [f];
    }
  }

  /** Four fields encoded, written out as the concatenation they stand for. */
  lemma EncodeFour(a: Field, b: Field, c: Field, d: Field)
    ensures Encode([a, b, c, d]) ==
      Pair(a) + ("&" + b.0 + "=") + b.1 + ("&" + c.0 + "=") + c.1 + ("&" + d.0 + "=") + d.1
  {
    EncodeSnoc([a], b);
    assert [a] + [b] == [a, b];
    EncodeSnoc([a, b], c);
    assert [a, b] + [c] == [a, b, c];
    EncodeSnoc([a, b, c], d);
    assert [a, b, c] + [d] == [a, b, c, d];
  }

  /** Five fields encoded, written out as the concatenation they stand for. */
  lemma EncodeFive(a: Field, b: Field, c: Field, d: Field, e: Field)
    ensures Encode([a, b, c, d, e]) ==
      Pair(a) + ("&" + b.0 + "=") + b.1 + ("&" + c.0 + "=") + c.1 + ("&" + d.0 + "=") + d.1 +
      ("&" + e.0 + "=") + e.1
  {
    EncodeFour(a, b, c, d);
    EncodeSnoc([a, b, c, d], e);
    assert [a, b, c, d] + [e] == [a, b, c, d, e];
  }

  /** DecodeEncode for five fields, each checked on its own. */
  lemma DecodeFive(a: Field, b: Field, c: Field, d: Field, e: Field)
    requires Plain(a) && Plain(b) && Plain(c) && Plain(d) && Plain(e)
    ensures Decode(Encode([a, b, c, d, e])) == [a, b, c, d, e]
  {
    var fields := [a, b, c, d, e];
    assert AllPlain(fields);
    DecodeEncode(fields);
  }

  /** Decoding an encoding returns the same fields in the same order. */
  lemma DecodeEncode(fields: seq<Field>)
    requires AllPlain(fields)
    ensures Decode(Encode(fields)) == fields
  {
    if fields != [] {
      SplitEncode(fields);
      FieldsOfPairs(fields);
      assert Pair(fields[0])[|fields[0].0|] == '=';
      assert Encode(fields) != "" by {
        if |fields| > 1 {
          assert Encode(fields)[|fields[0].0|] == '=';
        }
      }
    }
  }
}
