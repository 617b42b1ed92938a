/** The Go standard-library functions the core calls, stated exactly:
    `strings.Split` with a one-character separator, `strconv.Atoi` with a
    64-bit `int` (and `strconv.Itoa`, its partner), and `filepath.Ext` with
    `/` as the only path separator. A string is a sequence of characters,
    each standing for one byte of the Go string. */
module GoLib {
  import opened Outcomes
  import opened Models

  // ---------------------------------------------------------------------
  // strings.Split

  /** The number of occurrences of `c` in `s`. */
  function Count(s: string, c: char): (n: nat)
    ensures n <= |s|
    ensures n == 0 <==> c !in s
  {
    if s == [] then 0 else (if s[0] == c then 1 else 0) + Count(s[1..], c)
  }

  /** strings.Join with a one-character separator. */
  function Join(parts: seq<string>, sep: char): string
  {
    if |parts| == 0 then []
    else if |parts| == 1 then parts[0]
    else parts[0] + [sep] + Join(parts[1..], sep)
  }

  /** strings.Split(s, string(sep)): the pieces of `s` between occurrences of
      `sep`. There is one more piece than there are separators (so
      Split("", sep) is [""]), and no piece contains the separator. */
  function Split(s: string, sep: char): (parts: seq<string>)
    ensures |parts| == Count(s, sep) + 1
    ensures forall i :: 0 <= i < |parts| ==> sep !in parts[i]
  {
    if s == [] then [[]]
    else
      var rest := Split(s[1..], sep);
      if s[0] == sep then [[]] + rest
      else [[s[0]] + rest[0]] + rest[1..]
  }

  /** Joining the pieces with the separator gives back the split string. */
  lemma {:induction false} JoinSplit(s: string, sep: char)
    ensures Join(Split(s, sep), sep) == s
  {
    if s != [] {
      JoinSplit(s[1..], sep);
      var rest := Split(s[1..], sep);
      assert [s[0]] + s[1..] == s;
      if s[0] != sep {
        var parts := [[s[0]] + rest[0]] + rest[1..];
        assert parts[1..] == rest[1..];
        if |rest| > 1 {
          assert Join(rest, sep) == rest[0] + [sep] + Join(rest[1..], sep);
        }
      }
    }
  }

  /** A string without the separator splits into itself alone. */
  lemma {:induction false} SplitWithoutSeparator(s: string, sep: char)
    requires sep !in s
    ensures Split(s, sep) == [s]
  {
    if s != [] {
      SplitWithoutSeparator(s[1..], sep);
      assert [s[0]] + s[1..] == s;
    }
  }

  /** One step of Split: the first character either ends the first piece
      or joins it. */
  lemma SplitCons(c: char, t: string, sep: char)
    ensures Split([c] + t, sep)
         == if c == sep then [[]] + Split(t, sep) else [[c] + Split(t, sep)[0]] + Split(t, sep)[1..]
  {
    assert ([c] + t)[1..] == t;
  }

  /** A separator-free head is split off as the first piece. */
  lemma {:induction false} SplitAfterHead(head: string, sep: char, tail: string)
    requires sep !in head
    ensures Split(head + [sep] + tail, sep) == [head] + Split(tail, sep)
  {
    if head == [] {
      assert head + [sep] + tail == [sep] + tail;
      SplitCons(sep, tail, sep);
    } else {
      var t := head[1..] + [sep] + tail;
      assert head + [sep] + tail == [head[0]] + t;
      SplitCons(head[0], t, sep);
      SplitAfterHead(head[1..], sep, tail);
      assert [head[0]] + head[1..] == head;
    }
  }

  // ---------------------------------------------------------------------
  // strconv.Atoi and strconv.Itoa

  predicate IsDigit(c: char) {
    '0' <= c <= '9'
  }

  predicate AllDigits(s: string) {
    forall i :: 0 <= i < |s| ==> IsDigit(s[i])
  }

  function DigitValue(c: char): nat
    requires IsDigit(c)
  {
    (c as int) - ('0' as int)
  }

  function DigitChar(d: nat): (c: char)
    requires d < 10
    ensures IsDigit(c) && DigitValue(c) == d
  {
    (d + '0' as int) as char
  }

  /** The value of a string of decimal digits, most significant first. */
  function DecimalValue(ds: string): nat
    requires AllDigits(ds)
  {
    if ds == [] then 0 else 10 * DecimalValue(ds[..|ds| - 1]) + DigitValue(ds[|ds| - 1])
  }

  /** strconv.Atoi on a 64-bit platform: an optional `+` or `-`, then one or
      more ASCII decimal digits, whose value must lie within the range of a
      64-bit int; anything else (the empty string, a lone sign, a space, an
      underscore, an out-of-range value) is an error. */
  function Atoi(s: string): Option<Int64>
  {
    if s == [] then None
    else
      var digits := if s[0] == '+' || s[0] == '-' then s[1..] else s;
      if digits == [] || !AllDigits(digits) then None
      else
        var magnitude := DecimalValue(digits);
        var v: int := if s[0] == '-' then -(magnitude as int) else magnitude;
        if MinInt64 <= v <= MaxInt64 then Some(v) else None
  }

  /** The shortest decimal form of `n`. */
  function FormatNat(n: nat): (s: string)
    ensures s != [] && AllDigits(s)
    ensures DecimalValue(s) == n
  {
    if n < 10 then [DigitChar(n)]
    else
      var s := FormatNat(n / 10) + [DigitChar(n % 10)];
      assert s[..|s| - 1] == FormatNat(n / 10);
      s
  }

  /** strconv.Itoa: the decimal form of `n`, with a `-` when negative. */
  function Itoa(n: int): string {
    if n < 0 then "-" + FormatNat(-n) else FormatNat(n)
  }

  /** Atoi reads back every 64-bit integer Itoa writes. */
  lemma AtoiItoa(n: Int64)
    ensures Atoi(Itoa(n)) == Some(n)
  {
    var s := Itoa(n);
    if n < 0 {
      var m: nat := -(n as int);
      assert s[1..] == FormatNat(m);
    } else {
      assert s == FormatNat(n);
      assert IsDigit(s[0]);
    }
  }

  // ---------------------------------------------------------------------
  // filepath.Ext

  /** Where the path element that ends at `i` starts: just after the last `/`
      before position `i`, or 0. */
  function ElementStart(path: string, i: nat): (j: nat)
    requires i <= |path|
    ensures j <= i
    ensures j > 0 ==> path[j - 1] == '/'
    ensures forall k :: j <= k < i ==> path[k] != '/'
  {
    if i == 0 || path[i - 1] == '/' then i else ElementStart(path, i - 1)
  }

  /** The final element of a `/`-separated path: what follows its last `/`. */
  function LastElement(path: string): string {
    path[ElementStart(path, |path|)..]
  }

  /** The scan of filepath.Ext: walking back from position `i` and stopping
      at a `/`, the index of the first `.` met, or -1 when there is none. */
  function DotIndex(path: string, i: nat): (d: int)
    requires i <= |path|
    ensures d == -1 <==> forall k :: ElementStart(path, i) <= k < i ==> path[k] != '.'
    ensures d != -1 ==> ElementStart(path, i) <= d < i && path[d] == '.'
    ensures d != -1 ==> forall k :: d < k < i ==> path[k] != '.'
  {
    if i == 0 || path[i - 1] == '/' then -1
    else if path[i - 1] == '.' then i - 1
    else DotIndex(path, i - 1)
  }

  /** filepath.Ext: the suffix of `path` from the last `.` of its final
      element, or "" when that element has no `.`. */
  function Ext(path: string): string {
    var d := DotIndex(path, |path|);
    if d == -1 then [] else path[d..]
  }

  /** Ext is empty exactly when the final element has no `.`; otherwise it
      is a `.` followed by characters that are neither `.` nor `/`. Either
      way it is a suffix of the final element. */
  lemma ExtSpec(path: string)
    ensures var ext := Ext(path);
      && (ext == [] <==> '.' !in LastElement(path))
      && (ext != [] ==> ext[0] == '.' && '.' !in ext[1..] && '/' !in ext)
      && |ext| <= |LastElement(path)| && path[|path| - |ext|..] == ext
  {
    var d := DotIndex(path, |path|);
    var start := ElementStart(path, |path|);
    if d == -1 {
      assert forall k :: 0 <= k < |path| - start ==> LastElement(path)[k] == path[start + k];
    } else {
      var ext := path[d..];
      assert LastElement(path)[d - start] == '.';
      assert forall k :: 0 <= k < |ext| ==> ext[k] == path[d + k];
    }
  }
}
