/**
 What a session task is called: `<record>|<piece>`, and for an upload's part `|<server upload id>` after it. Printed in
 decimal, and read back with Swift's rules: a split leaves empty fields out, an integer fits in 64 bits.
 */
module Descriptions {
  import opened Common

  const MAX_INT := 0x7fff_ffff_ffff_ffff
  const BAR := '|'

  // -- Identifiers and integers --------------------------------------------------------------------------------------

  predicate IsDash(i: int) { i == 8 || i == 13 || i == 18 || i == 23 }

  predicate IsHex(c: char) { '0' <= c <= '9' || 'A' <= c <= 'F' }

  predicate IsLowerHex(c: char) { 'a' <= c <= 'f' }

  /** A UUID as it prints itself: 36 characters, upper case. */
  predicate IsUuid(s: string) {
    |s| == 36 && forall i | 0 <= i < 36 :: if IsDash(i) then s[i] == '-' else IsHex(s[i])
  }

  function Upper(c: char): (r: char) {
    if IsLowerHex(c) then (c as int - 'a' as int + 'A' as int) as char else c
  }

  function UpperCase(s: string): (r: string)
    ensures |r| == |s| && forall i | 0 <= i < |s| :: r[i] == Upper(s[i])
  {
    if s == "" then "" else [Upper(s[0])] + UpperCase(s[1..])
  }

  /** `UUID(uuidString:)`: either case is read. */
  function ParseUuid(s: string): (id: Option<string>) {
    if IsUuid(UpperCase(s)) then Some(UpperCase(s)) else None
  }

  function Digit(d: nat): (digit: char)
    requires d < 10
  {
    ('0' as int + d) as char
  }

  predicate IsDigit(c: char) { '0' <= c <= '9' }

  function Print(n: nat): (s: string)
    ensures |s| > 0 && forall c | c in s :: IsDigit(c)
  {
    if n < 10 then [Digit(n)] else Print(n / 10) + [Digit(n % 10)]
  }

  /** The value of a run of digits. */
  function Value(s: string): (value: nat)
    requires forall c | c in s :: IsDigit(c)
  {
    if s == "" then 0 else assert IsDigit(s[|s| - 1]); Value(s[..|s| - 1]) * 10 + (s[|s| - 1] as int - '0' as int)
  }

  /** `Int(_:)` of a string: digits after at most one sign, and nothing that overflows. */
  function ParseInt(s: string): (value: Option<int>) {
    var signed := s != "" && (s[0] == '-' || s[0] == '+');
    var digits := if signed then s[1..] else s;
    if digits == "" || !(forall c | c in digits :: IsDigit(c)) then None
    else
      var n: int := Value(digits);
      if signed && s[0] == '-' then if n <= MAX_INT + 1 then Some(-n) else None
      else if n <= MAX_INT then Some(n) else None
  }

  lemma {:induction false} ValueOfPrint(n: nat)
    ensures Value(Print(n)) == n
  {
    var s := Print(n);
    if n >= 10 {
      ValueOfPrint(n / 10);
      assert s[..|s| - 1] == Print(n / 10);
    } else {
      assert s[..|s| - 1] == "";
    }
  }

  lemma PrintedIsRead(n: nat)
    ensures ParseInt(Print(n)) == if n <= MAX_INT then Some(n) else None
  {
    ValueOfPrint(n);
    assert Print(n)[0] in Print(n);
  }

  /** A sign is read with the digits after it; below zero one more fits than above. */
  lemma SignedIsRead(n: nat)
    ensures ParseInt("-" + Print(n)) == (if n <= MAX_INT + 1 then Some(-(n as int)) else None) && ParseInt("+" + Print(n)) == if n <= MAX_INT then Some(n) else None
  {
    ValueOfPrint(n);
    assert ("-" + Print(n))[1..] == Print(n) && ("+" + Print(n))[1..] == Print(n);
  }

  /** Only digits after at most one sign are read. */
  lemma OnlyIntegersAreRead(s: string)
    ensures ParseInt(s).Some? ==>
              && s != "" && (IsDigit(s[0]) || (|s| > 1 && (s[0] == '-' || s[0] == '+'))) && (forall i | 1 <= i < |s| :: IsDigit(s[i]))
              && -(MAX_INT + 1) <= ParseInt(s).value <= MAX_INT
              && (ParseInt(s).value < 0 ==> s[0] == '-')
  {
    if ParseInt(s).Some? {
      var signed := s[0] == '-' || s[0] == '+';
      var digits := if signed then s[1..] else s;
      forall i | 1 <= i < |s| ensures IsDigit(s[i]) { assert digits[if signed then i - 1 else i] in digits; }
      assert digits[0] in digits;
    }
  }

  /** An identifier is read in either case, as it prints itself; anything else is not. */
  lemma EitherCaseIsRead(s: string)
    ensures ParseUuid(s).Some? <==>
              |s| == 36 && forall i | 0 <= i < 36 :: if IsDash(i) then s[i] == '-' else IsHex(s[i]) || 'a' <= s[i] <= 'f'
    ensures ParseUuid(s).Some? ==>
              IsUuid(ParseUuid(s).value) && forall i | 0 <= i < 36 :: ParseUuid(s).value[i] == if 'a' <= s[i] <= 'f' then s[i] - 32 as char else s[i]
  {
    var u := UpperCase(s);
    if |s| == 36 {
      forall i | 0 <= i < 36 ensures u[i] == '-' <==> s[i] == '-' {}
      forall i | 0 <= i < 36 ensures IsHex(u[i]) <==> IsHex(s[i]) || 'a' <= s[i] <= 'f' {}
    }
  }

  lemma {:induction false} UuidReadsItself(id: string)
    requires IsUuid(id)
    ensures ParseUuid(id) == Some(id)
  {
    assert UpperCase(id) == id;
  }

  // -- Fields ------------------------------------------------------------------------------------------------------------

  /** Where the first bar is, or the end. */
  function FirstBar(s: string): (i: nat)
    ensures i <= |s| && BAR !in s[..i] && (i < |s| ==> s[i] == BAR)
  {
    if s == "" || s[0] == BAR then 0
    else
      var i := 1 + FirstBar(s[1..]);
      assert s[..i] == [s[0]] + s[1..][..i - 1];
      i
  }

  /** `split(separator: "|")`: the fields between bars, empty ones left out. */
  function Split(s: string): (fields: seq<string>)
    ensures forall f | f in fields :: f != "" && BAR !in f
    decreases |s|
  {
    var i := FirstBar(s);
    var rest := if i < |s| then Split(s[i + 1..]) else [];
    if i == 0 then rest else [s[..i]] + rest
  }

  lemma BarAfter(a: string, rest: string)
    requires BAR !in a
    ensures FirstBar(a + [BAR] + rest) == |a| && FirstBar(a) == |a|
  {
    var s := a + [BAR] + rest;
    assert s[|a|] == BAR && s[..|a|] == a;
  }

  lemma SplitField(a: string, rest: string)
    requires a != "" && BAR !in a
    ensures Split(a + [BAR] + rest) == [a] + Split(rest)
    ensures Split(a) == [a]
  {
    BarAfter(a, rest);
    var s := a + [BAR] + rest;
    assert s[..|a|] == a && s[|a| + 1..] == rest;
    assert a[..|a|] == a;
  }

  lemma SplitFirst(a: string, rest: string)
    requires BAR !in a
    ensures Split(a + [BAR] + rest) == (if a == "" then [] else [a]) + Split(rest)
    ensures Split(a) == if a == "" then [] else [a]
  {
    if a == "" {
      assert a + [BAR] + rest == [BAR] + rest && ([BAR] + rest)[1..] == rest;
    } else {
      SplitField(a, rest);
    }
  }

  /** Splitting goes over the bars one by one, and leaves out what is empty between them. */
  lemma {:induction false} SplitsAtEveryBar(a: string, b: string)
    ensures Split(a + [BAR] + b) == Split(a) + Split(b)
    ensures BAR !in a ==> Split(a) == if a == "" then [] else [a]
    decreases |a|
  {
    hide Split;
    var i := FirstBar(a);
    if i == |a| {
      assert a[..i] == a;
      SplitFirst(a, b);
    } else {
      var front, rest := a[..i], a[i + 1..];
      assert a[i] == BAR && a == front + [BAR] + rest;
      hide FirstBar;
      SplitsAtEveryBar(rest, b);
      assert a + [BAR] + b == front + [BAR] + (rest + [BAR] + b);
      SplitFirst(front, rest + [BAR] + b);
      SplitFirst(front, rest);
    }
  }

  // -- Descriptions --------------------------------------------------------------------------------------------------------

  function Describe(id: string, piece: nat, upload: Option<string>): (description: string) {
    match upload
    case Some(u) => id + [BAR] + (Print(piece) + [BAR] + u)
    case None => id + [BAR] + Print(piece)
  }

  function Parse(description: string): (named: Option<(string, int)>) {
    var parts := Split(description);
    if |parts| != 2 && |parts| != 3 then None
    else
      match (ParseUuid(parts[0]), ParseInt(parts[1]))
      case (Some(id), Some(piece)) => Some((id, piece))
      case _ => None
  }

  function UploadIn(description: string): (upload: Option<string>) {
    var parts := Split(description);
    if |parts| == 3 then Some(parts[2]) else None
  }

  /** A description is read exactly when it has two or three fields, the first an identifier and the second an integer. */
  lemma ReadExactly(d: string)
    ensures var fields := Split(d);
            && (Parse(d).Some? <==> (|fields| == 2 || |fields| == 3) && ParseUuid(fields[0]).Some? && ParseInt(fields[1]).Some?)
            && (Parse(d).Some? ==> Parse(d).value == (ParseUuid(fields[0]).value, ParseInt(fields[1]).value))
            && (UploadIn(d).Some? <==> |fields| == 3) && (UploadIn(d).Some? ==> UploadIn(d).value == fields[2])
  {
  }

  lemma NoBarInside(id: string, piece: nat)
    requires IsUuid(id)
    ensures id != "" && BAR !in id && Print(piece) != "" && BAR !in Print(piece)
  {
    assert forall i | 0 <= i < |id| :: id[i] != BAR;
  }

  /** A keep's piece, or a part that names no upload, reads back as it was written. */
  lemma ShortRoundTrip(id: string, piece: nat)
    requires IsUuid(id) && piece <= MAX_INT
    ensures Parse(Describe(id, piece, None)) == Some((id, piece))
    ensures UploadIn(Describe(id, piece, None)).None?
  {
    NoBarInside(id, piece);
    SplitField(id, Print(piece));
    SplitField(Print(piece), "");
    UuidReadsItself(id);
    PrintedIsRead(piece);
  }

  /** An upload's part reads back as it was written exactly when the server's upload id is not empty and has no bar. */
  lemma RoundTrip(id: string, piece: nat, upload: string)
    requires IsUuid(id) && piece <= MAX_INT
    ensures Parse(Describe(id, piece, Some(upload))) == Some((id, piece)) && UploadIn(Describe(id, piece, Some(upload))) == Some(upload)
            <==> upload != "" && BAR !in upload
  {
    NoBarInside(id, piece);
    SplitField(id, Print(piece) + [BAR] + upload);
    SplitField(Print(piece), upload);
    UuidReadsItself(id);
    PrintedIsRead(piece);
    var parts := Split(Describe(id, piece, Some(upload)));
    assert parts == [id] + ([Print(piece)] + Split(upload));
    if upload != "" && BAR !in upload { SplitField(upload, ""); }
    if |parts| == 3 { assert parts[2] in parts; }
  }

  /** Two tasks are described alike only when they are for the same piece of the same upload of the same record. */
  lemma DescribesApart(id: string, piece: nat, upload: Option<string>, id': string, piece': nat, upload': Option<string>)
    requires IsUuid(id) && IsUuid(id') && piece <= MAX_INT && piece' <= MAX_INT
    requires upload.Some? ==> upload.value != "" && BAR !in upload.value
    requires upload'.Some? ==> upload'.value != "" && BAR !in upload'.value
    ensures Describe(id, piece, upload) == Describe(id', piece', upload') <==> id == id' && piece == piece' && upload == upload'
  {
    if upload.Some? { RoundTrip(id, piece, upload.value); } else { ShortRoundTrip(id, piece); }
    if upload'.Some? { RoundTrip(id', piece', upload'.value); } else { ShortRoundTrip(id', piece'); }
  }

  /** The test a cancel picks tasks by: a description begins with a record's id exactly when it is that record's. */
  lemma PrefixPicksTheRecord(id: string, other: string, piece: nat, upload: Option<string>)
    requires IsUuid(id) && IsUuid(other)
    ensures id <= Describe(other, piece, upload) <==> id == other
  {
    var d := Describe(other, piece, upload);
    assert |d| > 36 && d[..36] == other;
  }
}
