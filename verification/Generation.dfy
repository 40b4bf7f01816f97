/** Decimal numerals as Go prints and reads them. */
module Decimal {

  predicate IsDigit(c: char) { '0' <= c <= '9' }

  predicate AllDigits(s: string) { forall i :: 0 <= i < |s| ==> IsDigit(s[i]) }

  function DigitValue(c: char): nat
    requires IsDigit(c)
  {
    c as int - '0' as int
  }

  /** The number a run of digits denotes, leading zeros and all. */
  function Value(s: string): nat
    requires AllDigits(s)
  {
    if s == "" then 0 else 10 * Value(s[..|s| - 1]) + DigitValue(s[|s| - 1])
  }

  /** strconv.Itoa of a non-negative number. */
  function Print(n: nat): (s: string)
    ensures AllDigits(s) && |s| > 0
  {
    var last := [('0' as int + n % 10) as char];
    if n < 10 then last else Print(n / 10) + last
  }

  function PrintInt(n: int): string
  {
    if n < 0 then "-" + Print(-n) else Print(n)
  }

  function Zeros(n: nat): (s: string)
    ensures |s| == n && AllDigits(s)
  {
    seq(n, i => '0')
  }

  /** Left-padding with zeros up to a width. */
  function Pad(s: string, width: nat): string
  {
    if |s| < width then Zeros(width - |s|) + s else s
  }

  lemma {:induction false} PrintThenRead(n: nat)
    ensures Value(Print(n)) == n
  {
    if n >= 10 {
      PrintThenRead(n / 10);
      var s := Print(n);
      assert s[..|s| - 1] == Print(n / 10);
    }
  }

  lemma {:induction false} ZerosAreSilent(k: nat, s: string)
    requires AllDigits(s)
    ensures AllDigits(Zeros(k) + s) && Value(Zeros(k) + s) == Value(s)
    decreases k + |s|
  {
    var t := Zeros(k) + s;
    if s == "" {
      if k > 0 {
        assert t[..k - 1] == Zeros(k - 1) + "";
        ZerosAreSilent(k - 1, "");
      }
    } else {
      assert t[..|t| - 1] == Zeros(k) + s[..|s| - 1];
      ZerosAreSilent(k, s[..|s| - 1]);
    }
  }

  /** Where the maximal run of trailing digits starts. */
  function DigitsFrom(s: string): (i: nat)
    ensures i <= |s| && AllDigits(s[i..])
    ensures i > 0 ==> !IsDigit(s[i - 1])
  {
    if s == "" || !IsDigit(s[|s| - 1]) then |s|
    else
      var i := DigitsFrom(s[..|s| - 1]);
      assert s[i..] == s[..|s| - 1][i..] + [s[|s| - 1]];
      i
  }

  /** The split is the only one into a part not ending in a digit and a run of digits. */
  lemma {:induction false} SplitIsUnique(prefix: string, digits: string)
    requires AllDigits(digits) && (prefix == "" || !IsDigit(prefix[|prefix| - 1]))
    ensures DigitsFrom(prefix + digits) == |prefix|
    decreases |digits|
  {
    var s := prefix + digits;
    if digits != "" {
      assert s[..|s| - 1] == prefix + digits[..|digits| - 1];
      SplitIsUnique(prefix, digits[..|digits| - 1]);
    } else {
      assert s == prefix;
    }
  }
}

/** Candidates generated from a confirmed hit: backups of a file, siblings of a number. */
module Generation {
  import opened ScanTypes
  import opened Decimal

  const BACKUP_SUFFIXES: seq<string> := [".bak", ".old", ".zip", ".tar.gz", ".swp", "~"]
  const SIBLING_BOUND: nat := 5
  const MAX_INT: nat := 0x7fff_ffff_ffff_ffff

  /** 64-bit signed addition. */
  function WrapAdd(a: nat, b: nat): int
    requires a <= MAX_INT && b <= MAX_INT
  {
    if a + b <= MAX_INT then a + b else a + b - 0x1_0000_0000_0000_0000
  }

  function BackupOf(c: Candidate, i: nat): Candidate
    requires i < |BACKUP_SUFFIXES|
  {
    Candidate(c.path + BACKUP_SUFFIXES[i], TypeFile, c.basePrio, 0.0, c.depth, c.parentDir, "generated:backup:" + c.path, c.tags)
  }

  function Backups(c: Candidate): seq<Candidate>
  {
    seq(|BACKUP_SUFFIXES|, i requires 0 <= i < |BACKUP_SUFFIXES| => BackupOf(c, i))
  }

  function Prefix(path: string): string { path[..DigitsFrom(path)] }

  function Digits(path: string): (s: string)
    ensures AllDigits(s)
  {
    path[DigitsFrom(path)..]
  }

  /** The trailing-integer pattern matches, and the number fits an int. */
  predicate Numbered(path: string)
  {
    Digits(path) != "" && '\n' !in Prefix(path) && Value(Digits(path)) <= MAX_INT
  }

  function SiblingPath(path: string, i: nat): string
    requires Numbered(path) && i <= SIBLING_BOUND
  {
    Prefix(path) + Pad(PrintInt(WrapAdd(Value(Digits(path)), i)), |Digits(path)|)
  }

  function SiblingOf(c: Candidate, i: nat): Candidate
    requires Numbered(c.path) && i <= SIBLING_BOUND
  {
    Candidate(SiblingPath(c.path, i), c.kind, c.basePrio, 0.0, c.depth, c.parentDir, "generated:sibling:" + c.path, c.tags)
  }

  function Siblings(c: Candidate): seq<Candidate>
  {
    if !Numbered(c.path) then []
    else seq(SIBLING_BOUND, i requires 0 <= i < SIBLING_BOUND => SiblingOf(c, i + 1))
  }

  function Generate(c: Candidate): (out: seq<Candidate>)
    ensures |out| <= 11
    ensures forall i :: 0 <= i < |out| ==> out[i].parentDir == c.parentDir
  {
    (if c.kind == TypeFile then Backups(c) else []) + Siblings(c)
  }

  method BackupsFor(c: Candidate) returns (out: seq<Candidate>)
    ensures out == Backups(c)
  {
    out := [];
    for k := 0 to |BACKUP_SUFFIXES|
      invariant out == Backups(c)[..k]
    {
      out := out + [BackupOf(c, k)];
    }
  }

  method SiblingFor(c: Candidate, prefix: string, n: nat, width: nat, i: nat) returns (sibling: Candidate)
    requires Numbered(c.path) && i <= SIBLING_BOUND
    requires prefix == Prefix(c.path) && n == Value(Digits(c.path)) && width == |Digits(c.path)|
    ensures sibling == SiblingOf(c, i)
  {
    hide Prefix, Value, Digits, PrintInt, WrapAdd;
    var s := PrintInt(WrapAdd(n, i));
    if |s| < width {
      s := Zeros(width - |s|) + s;
    }
    sibling := Candidate(prefix + s, c.kind, c.basePrio, 0.0, c.depth, c.parentDir, "generated:sibling:" + c.path, c.tags);
  }

  method SiblingsFor(c: Candidate) returns (out: seq<Candidate>)
    ensures out == Siblings(c)
  {
    hide Prefix, Value, Digits, SiblingOf, Numbered;
    out := [];
    if !Numbered(c.path) { return; }
    var prefix, n, width := Prefix(c.path), Value(Digits(c.path)), |Digits(c.path)|;
    for i := 1 to SIBLING_BOUND + 1
      invariant out == Siblings(c)[..i - 1]
    {
      var sibling := SiblingFor(c, prefix, n, width, i);
      out := out + [sibling];
    }
  }

  /** The i-th sibling reads back as the same prefix and the number i higher, in the old width
      unless the number needs more digits. */
  ghost predicate ReadsBack(path: string, i: nat)
    requires Numbered(path) && i <= SIBLING_BOUND
  {
    var t := SiblingPath(path, i);
    && Prefix(t) == Prefix(path)
    && Value(Digits(t)) == Value(Digits(path)) + i
    && |Digits(t)| == if |Print(Value(Digits(path)) + i)| > |Digits(path)| then |Print(Value(Digits(path)) + i)| else |Digits(path)|
  }

  lemma SiblingReadsBack(path: string, i: nat)
    requires Numbered(path) && i <= SIBLING_BOUND
    requires Value(Digits(path)) + i <= MAX_INT
    ensures ReadsBack(path, i)
  {
    hide Value, Print, Pad, Digits, Prefix;
    var n := Value(Digits(path)) + i;
    PadReads(n, |Digits(path)|);
    PrefixEnds(path);
    Resplits(Prefix(path), Pad(Print(n), |Digits(path)|));
  }

  lemma PrefixEnds(path: string)
    ensures Prefix(path) == "" || !IsDigit(Prefix(path)[|Prefix(path)| - 1])
  {
  }

  lemma PadReads(n: nat, width: nat)
    ensures var digits := Pad(Print(n), width);
            AllDigits(digits) && Value(digits) == n && |digits| == if |Print(n)| > width then |Print(n)| else width
  {
    PrintThenRead(n);
    if |Print(n)| < width {
      ZerosAreSilent(width - |Print(n)|, Print(n));
    }
  }

  lemma Resplits(prefix: string, digits: string)
    requires AllDigits(digits) && (prefix == "" || !IsDigit(prefix[|prefix| - 1]))
    ensures Prefix(prefix + digits) == prefix && Digits(prefix + digits) == digits
  {
    SplitIsUnique(prefix, digits);
  }

  /** A sum past the largest int wraps to a negative numeral, whose sign joins the prefix. */
  lemma OverflowDoesNot(path: string, i: nat)
    requires Numbered(path) && i <= SIBLING_BOUND
    requires Value(Digits(path)) + i > MAX_INT
    ensures !ReadsBack(path, i)
  {
    hide Value, Print, Digits, Prefix, ReadsBack;
    var p := Prefix(path);
    var m := -WrapAdd(Value(Digits(path)), i);
    var width := |Digits(path)|;
    var s := "-" + Print(m);
    var zeros := if |s| < width then Zeros(width - |s|) else "";
    assert SiblingPath(path, i) == (p + zeros + "-") + Print(m);
    Signed(path, i, p + zeros + "-", m);
  }

  lemma Signed(path: string, i: nat, prefix: string, m: nat)
    requires Numbered(path) && i <= SIBLING_BOUND
    requires prefix != "" && prefix[|prefix| - 1] == '-' && |prefix| > |Prefix(path)| && SiblingPath(path, i) == prefix + Print(m)
    ensures !ReadsBack(path, i)
  {
    hide Value, Print, Digits, Prefix, SiblingPath;
    PrintThenRead(m);
    Resplits(prefix, Print(m));
  }

  /** Printing then parsing a generated sibling is exact for all five precisely when none of
      the five sums overflows. */
  lemma SiblingsAreExact(path: string)
    requires Numbered(path)
    ensures (forall i :: 1 <= i <= SIBLING_BOUND ==> ReadsBack(path, i))
            <==> Value(Digits(path)) + SIBLING_BOUND <= MAX_INT
  {
    if Value(Digits(path)) + SIBLING_BOUND <= MAX_INT {
      forall i: nat | 1 <= i <= SIBLING_BOUND ensures ReadsBack(path, i) { SiblingReadsBack(path, i); }
    } else {
      OverflowDoesNot(path, SIBLING_BOUND);
    }
  }

  /** Exact siblings differ from each other and from the hit they came from. */
  lemma SiblingsDiffer(path: string, i: nat, j: nat)
    requires Numbered(path) && 1 <= i < j <= SIBLING_BOUND
    requires Value(Digits(path)) + SIBLING_BOUND <= MAX_INT
    ensures SiblingPath(path, i) != SiblingPath(path, j)
    ensures SiblingPath(path, i) != path && SiblingPath(path, j) != path
  {
    SiblingReadsBack(path, i);
    SiblingReadsBack(path, j);
  }
}
