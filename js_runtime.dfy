/** The few JavaScript built-ins the pages rely on: Math.round, the `+x || 0`
    numeric coercion, the `|| default` fallback for falsy values,
    String.prototype.toLowerCase, includes and split (one-character
    separator), and the Uint8Array store conversion. Numbers are `real`. */
module JsRuntime {
  import opened Optional

  /** Math.round: the nearest integer, with halves rounded towards +infinity. */
  function Round(x: real): (r: int)
    ensures r as real - 1.0 / 2.0 <= x < r as real + 1.0 / 2.0
  {
    (x + 1.0 / 2.0).Floor
  }

  lemma RoundMonotone(x: real, y: real)
    requires x <= y
    ensures Round(x) <= Round(y)
  {
  }

  lemma RoundOfInteger(n: int)
    ensures Round(n as real) == n
  {
  }

  /** The value of unary `+x` on a response field: a number, or NaN when the
      field is missing or does not parse as a number. */
  datatype Numeric = Num(value: real) | NaN

  /** `+x || 0`: NaN and 0 are falsy, so both become 0. */
  function NumberOrZero(n: Numeric): (r: real)
    ensures n.NaN? ==> r == 0.0
    ensures n.Num? ==> r == n.value
  {
    match n
    case Num(v) => if v != 0.0 then v else 0.0
    case NaN => 0.0
  }

  /** `x || d` for a numeric field: None stands for a missing value;
      0 is falsy too. */
  function NumberOr(x: Option<real>, d: real): (r: real)
    ensures r == d || (x.Some? && x.value != 0.0 && r == x.value)
    ensures x.Some? && x.value != 0.0 ==> r == x.value
  {
    if x.Some? && x.value != 0.0 then x.value else d
  }

  /** `x || d` for a string field: None stands for a missing value;
      the empty string is falsy too. */
  function StringOr(x: Option<string>, d: string): (r: string)
    ensures x.Some? && x.value != "" ==> r == x.value
    ensures x.None? || x.value == "" ==> r == d
  {
    if x.Some? && x.value != "" then x.value else d
  }

  function LowerChar(c: char): char {
    if 'A' <= c <= 'Z' then (c as int + 32) as char else c
  }

  predicate IsUpper(c: char) {
    'A' <= c <= 'Z'
  }

  /** toLowerCase, restricted to ASCII letters. */
  function ToLower(s: string): (r: string)
    ensures |r| == |s|
    ensures forall i :: 0 <= i < |s| ==> !IsUpper(r[i])
    ensures forall i :: 0 <= i < |s| && !IsUpper(s[i]) ==> r[i] == s[i]
    ensures forall i :: 0 <= i < |s| && IsUpper(s[i]) ==> r[i] as int == s[i] as int + 32
  {
    seq(|s|, i requires 0 <= i < |s| => LowerChar(s[i]))
  }

  lemma ToLowerIdempotent(s: string)
    ensures ToLower(ToLower(s)) == ToLower(s)
  {
  }

  /** `k` occurs in `s` starting at index `i`. */
  predicate OccursAt(s: string, k: string, i: int) {
    0 <= i && i + |k| <= |s| && s[i..i + |k|] == k
  }

  /** `s.includes(k)`. */
  function Includes(s: string, k: string): (b: bool)
    ensures b <==> exists i :: OccursAt(s, k, i)
    decreases |s|
  {
    if k <= s then
      assert OccursAt(s, k, 0);
      true
    else if |s| == 0 then
      false
    else
      var rest := Includes(s[1..], k);
      assert forall j :: OccursAt(s[1..], k, j) <==> OccursAt(s, k, j + 1) by {
        forall j ensures OccursAt(s[1..], k, j) <==> OccursAt(s, k, j + 1) {
          if 0 <= j && j + |k| <= |s| - 1 {
            assert s[1..][j..j + |k|] == s[j + 1..j + 1 + |k|];
          }
        }
      }
      assert !OccursAt(s, k, 0);
      assert (exists i :: OccursAt(s, k, i)) ==> exists j :: OccursAt(s[1..], k, j) by {
        if exists i :: OccursAt(s, k, i) {
          var i :| OccursAt(s, k, i);
          assert OccursAt(s[1..], k, i - 1);
        }
      }
      rest
  }

  /** `s.split(sep)` for a one-character separator. */
  function Split(s: string, sep: char): (parts: seq<string>)
    ensures |parts| >= 1
    ensures forall p :: p in parts ==> sep !in p
    ensures forall p, c :: p in parts && c in p ==> c in s
    decreases |s|
  {
    if |s| == 0 then [""]
    else if s[0] == sep then [""] + Split(s[1..], sep)
    else
      var rest := Split(s[1..], sep);
      [[s[0]] + rest[0]] + rest[1..]
  }

  /** `parts.join(sep)`. */
  function Join(parts: seq<string>, sep: char): string
    requires |parts| >= 1
  {
    if |parts| == 1 then parts[0] else parts[0] + [sep] + Join(parts[1..], sep)
  }

  /** Splitting and joining again gives back the original string. */
  lemma {:induction false} JoinSplit(s: string, sep: char)
    ensures Join(Split(s, sep), sep) == s
    decreases |s|
  {
    if |s| == 0 {
    } else if s[0] == sep {
      JoinSplit(s[1..], sep);
      assert [s[0]] + s[1..] == s;
    } else {
      JoinSplit(s[1..], sep);
      var rest := Split(s[1..], sep);
      if |rest| == 1 {
        assert [s[0]] + rest[0] == s;
      } else {
        assert [s[0]] + rest[0] + [sep] + Join(rest[1..], sep) == [s[0]] + s[1..];
        assert [s[0]] + s[1..] == s;
      }
    }
  }

  /** A string without the separator splits into itself alone. */
  lemma {:induction false} SplitNoSeparator(s: string, sep: char)
    requires sep !in s
    ensures Split(s, sep) == [s]
    decreases |s|
  {
    if |s| > 0 {
      assert s[1..] == s[|s| - |s[1..]|..];
      assert sep !in s[1..];
      SplitNoSeparator(s[1..], sep);
      assert [s[0]] + s[1..] == s;
    }
  }

  /** A prefix free of the separator is glued to the first part only. */
  lemma {:induction false} SplitPrefix(a: string, b: string, sep: char)
    requires sep !in a
    ensures Split(a + b, sep)[0] == a + Split(b, sep)[0]
    ensures Split(a + b, sep)[1..] == Split(b, sep)[1..]
    decreases |a|
  {
    if |a| > 0 {
      assert (a + b)[0] == a[0] && a[0] != sep;
      assert (a + b)[1..] == a[1..] + b;
      assert sep !in a[1..] by {
        forall i | 0 <= i < |a[1..]| ensures a[1..][i] != sep {
          assert a[1..][i] == a[i + 1];
        }
      }
      SplitPrefix(a[1..], b, sep);
      var rest := Split(a[1..] + b, sep);
      assert rest == Split((a + b)[1..], sep);
      assert Split(a + b, sep) == [[a[0]] + rest[0]] + rest[1..];
      assert rest[0] == a[1..] + Split(b, sep)[0];
      assert [a[0]] + (a[1..] + Split(b, sep)[0]) == a + Split(b, sep)[0];
    } else {
      assert a + b == b;
    }
  }

  /** A leading separator starts a new part. */
  lemma SplitAtSeparator(b: string, sep: char)
    ensures Split([sep] + b, sep) == [""] + Split(b, sep)
  {
    assert ([sep] + b)[1..] == b;
  }

  newtype byte = x: int | 0 <= x < 256

  /** The conversion a Uint8Array element store applies: modulo 2^8. */
  function ToUint8(n: int): (b: byte)
    ensures b as int == n % 256
    ensures 0 <= n < 256 ==> b as int == n
  {
    (n % 256) as byte
  }
}
