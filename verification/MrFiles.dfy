/** Names of intermediate files: which attempt wrote them, and for which bucket. */
module MrFiles {

  const DIGITS := "0123456789"

  predicate IsDigit(c: char) { c in DIGITS }

  /** A number in decimal. */
  function Decimal(n: nat): string {
    if n < 10 then [DIGITS[n]] else Decimal(n / 10) + [DIGITS[n % 10]]
  }

  function DigitValue(c: char): nat { if c == '1' then 1 else if c == '2' then 2 else if c == '3' then 3 else if c == '4' then 4
    else if c == '5' then 5 else if c == '6' then 6 else if c == '7' then 7 else if c == '8' then 8 else if c == '9' then 9 else 0 }

  /** The number a string of digits stands for; nothing stands for 0. */
  function Number(s: string): nat {
    if s == [] then 0 else Number(s[..|s| - 1]) * 10 + DigitValue(s[|s| - 1])
  }

  lemma {:induction false} DecimalIsNumber(n: nat)
    ensures Number(Decimal(n)) == n && Decimal(n) != [] && forall i :: 0 <= i < |Decimal(n)| ==> IsDigit(Decimal(n)[i])
  {
    if n >= 10 {
      DecimalIsNumber(n / 10);
      assert Decimal(n)[..|Decimal(n)| - 1] == Decimal(n / 10);
      LastDigit(n % 10);
    } else {
      LastDigit(n);
      assert Decimal(n)[..0] == [];
    }
  }

  lemma LastDigit(d: nat)
    requires d < 10
    ensures IsDigit(DIGITS[d]) && DigitValue(DIGITS[d]) == d
  {
  }

  /** mr-<id>-<bucket>.json */
  function FileName(id: nat, bucket: nat): string {
    "mr-" + (Decimal(id) + ("-" + (Decimal(bucket) + ".json")))
  }

  /** How many digits a string begins with. */
  function DigitRun(s: string): (n: nat)
    ensures n <= |s|
  {
    if s != [] && IsDigit(s[0]) then 1 + DigitRun(s[1..]) else 0
  }

  datatype Match = NoMatch | Matched(bucket: string)

  /** The second number of a name of the form mr-<digits>-<digits>.json. */
  function BucketIn(file: string): Match {
    if |file| < 3 || file[..3] != "mr-" then NoMatch
    else
      var rest := file[3..];
      var d := DigitRun(rest);
      if d == 0 || d == |rest| || rest[d] != '-' then NoMatch
      else
        var tail := rest[d + 1..];
        var e := DigitRun(tail);
        if e == 0 || tail[e..] != ".json" then NoMatch else Matched(tail[..e])
  }

  lemma {:induction false} DigitRunStops(a: string, b: string)
    requires (forall i :: 0 <= i < |a| ==> IsDigit(a[i])) && (b == [] || !IsDigit(b[0]))
    ensures DigitRun(a + b) == |a|
  {
    if a == [] {
      assert a + b == b;
    } else {
      assert (a + b)[1..] == a[1..] + b;
      DigitRunStops(a[1..], b);
    }
  }

  lemma NameParts(id: nat, bucket: nat)
    ensures var tail := Decimal(bucket) + ".json"; var rest := Decimal(id) + ("-" + tail);
      FileName(id, bucket)[..3] == "mr-" && FileName(id, bucket)[3..] == rest && |FileName(id, bucket)| >= 3
      && |rest| > |Decimal(id)| && rest[|Decimal(id)|] == '-' && rest[|Decimal(id)| + 1..] == tail
      && tail[|Decimal(bucket)|..] == ".json" && tail[..|Decimal(bucket)|] == Decimal(bucket)
  {
  }

  /** A name leads back to the bucket it was made for. */
  lemma NameRoundTrip(id: nat, bucket: nat)
    ensures BucketIn(FileName(id, bucket)).Matched? && Number(BucketIn(FileName(id, bucket)).bucket) == bucket
  {
    DecimalIsNumber(id);
    DecimalIsNumber(bucket);
    NameParts(id, bucket);
    DigitRunStops(Decimal(id), "-" + (Decimal(bucket) + ".json"));
    DigitRunStops(Decimal(bucket), ".json");
  }

  /** Different attempts, or different buckets, never write to the same file. */
  lemma NamesDiffer(id: nat, bucket: nat, other: nat, elsewhere: nat)
    requires FileName(id, bucket) == FileName(other, elsewhere)
    ensures id == other && bucket == elsewhere
  {
    NameRoundTrip(id, bucket);
    NameRoundTrip(other, elsewhere);
    hide BucketIn;
    DecimalIsNumber(id);
    DecimalIsNumber(other);
    NameParts(id, bucket);
    NameParts(other, elsewhere);
    DigitRunStops(Decimal(id), "-" + (Decimal(bucket) + ".json"));
    DigitRunStops(Decimal(other), "-" + (Decimal(elsewhere) + ".json"));
    assert Decimal(id) == FileName(id, bucket)[3..][..|Decimal(id)|];
    assert Decimal(other) == FileName(other, elsewhere)[3..][..|Decimal(other)|];
  }

  /** The bucket the i-th file goes to. A name that does not match goes where the file before
      it went, and the first to bucket 0. */
  function Destination(files: seq<string>, i: nat): nat
    requires i < |files|
  {
    match BucketIn(files[i])
    case Matched(bucket) => Number(bucket)
    case NoMatch => if i == 0 then 0 else Destination(files, i - 1)
  }

  /** Said without the scan: the number in the last name up to i that matches, or 0. */
  lemma {:induction false} DestinationIs(files: seq<string>, i: nat, j: int)
    requires i < |files| && -1 <= j <= i && (j >= 0 ==> BucketIn(files[j]).Matched?)
    requires forall k :: j < k <= i ==> BucketIn(files[k]).NoMatch?
    ensures Destination(files, i) == if j < 0 then 0 else Number(BucketIn(files[j]).bucket)
  {
    hide BucketIn, Number;
    if j < i && i > 0 { DestinationIs(files, i - 1, j); }
  }

  /** The files that go to a bucket, in order. */
  function FilesFor(files: seq<string>, n: nat, bucket: nat): seq<string>
    requires n <= |files|
  {
    if n == 0 then []
    else FilesFor(files, n - 1, bucket) + if Destination(files, n - 1) == bucket then [files[n - 1]] else []
  }

  function Files(groups: map<nat, seq<string>>, bucket: nat): seq<string> {
    if bucket in groups then groups[bucket] else []
  }

  ghost predicate Grouped(groups: map<nat, seq<string>>, files: seq<string>, n: nat) {
    n <= |files| && forall b: nat :: Files(groups, b) == FilesFor(files, n, b)
  }

  lemma GroupedNext(groups: map<nat, seq<string>>, files: seq<string>, n: nat, b: nat)
    requires n < |files| && Grouped(groups, files, n) && b == Destination(files, n)
    ensures Grouped(groups[b := Files(groups, b) + [files[n]]], files, n + 1)
  {
    hide Destination;
    var after := groups[b := Files(groups, b) + [files[n]]];
    forall c: nat ensures Files(after, c) == FilesFor(files, n + 1, c) {
      assert Files(groups, c) == FilesFor(files, n, c);
    }
  }

  method GroupFiles(files: seq<string>) returns (groups: map<nat, seq<string>>)
    ensures Grouped(groups, files, |files|)
  {
    groups := map[];
    var second := "";
    for i := 0 to |files|
      invariant Grouped(groups, files, i)
      invariant Number(second) == if i == 0 then 0 else Destination(files, i - 1)
    {
      hide Number, BucketIn, Grouped;
      var found := BucketIn(files[i]);
      if found.Matched? {
        second := found.bucket;
      }
      GroupedNext(groups, files, i, Number(second));
      groups := groups[Number(second) := Files(groups, Number(second)) + [files[i]]];
    }
  }
}
