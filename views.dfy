/**
 * The logic of agri/views.py: `GenerateBatchNumberView.post`, which previews
 * the next batch number for a (doa, year) pair without writing anything, and
 * the exact lookup by `batch_number` of `BatchDetailView`, and the route that
 * leads to it (agri/urls.py).
 *
 * The view reads the batch table and computes; it is modelled as functions
 * over the table, so that the table is unchanged afterwards by construction.
 */
module Views {
  import opened Wrappers
  import opened Text
  import opened Models

  const MissingInputError := "DOA and year are required"
  const FirstSequence := "001"
  const SequenceDigits: nat := 3

  /** The reply of the allocator: the composed number and its three parts. */
  datatype Allocation = Allocation(batchNumber: string, doa: string, year: string, sequence: string)

  /** `Batch.objects.filter(doa=doa, year=year)`: both columns equal. */
  predicate InGroup(b: Batch, doa: string, year: string)
  {
    b.doa == doa && b.year == year
  }

  /**
   * The sequence of `filter(doa, year).order_by('-sequence').first()`: the
   * string-greatest sequence among the batches of the group, or `None` when
   * the group is empty. Rows are visited lowest primary key first.
   */
  function LatestSequence(batches: map<Pk, Batch>, doa: string, year: string): (r: Option<string>)
    ensures r.None? <==> forall k :: k in batches ==> !InGroup(batches[k], doa, year)
    ensures r.Some? ==> exists k :: k in batches && InGroup(batches[k], doa, year) && batches[k].sequence == r.value
    ensures r.Some? ==> forall k :: k in batches && InGroup(batches[k], doa, year) ==> LexLeq(batches[k].sequence, r.value)
    decreases |batches|
  {
    if batches == map[] then None
    else
      var k := LeastKey(batches.Keys);
      var b := batches[k];
      var others := batches - {k};
      assert others.Keys == batches.Keys - {k};
      assert forall j :: j in batches ==> j == k || j in others;
      var rest := LatestSequence(others, doa, year);
      LexOrder();
      if !InGroup(b, doa, year) then rest
      else if rest.None? || LexLess(rest.value, b.sequence) then Some(b.sequence)
      else rest
  }

  /**
   * `str(int(latest) + 1).zfill(3)`, with `"001"` when there is no latest
   * batch or its sequence does not parse.
   */
  function NextSequence(latest: Option<string>): (r: string)
    ensures |r| >= SequenceDigits
    ensures latest.Some? && ParseDecimal(latest.value).Some? ==>
              ParseDecimal(r) == Some(ParseDecimal(latest.value).value + 1)
    ensures latest.None? || ParseDecimal(latest.value).None? ==> r == FirstSequence
  {
    match latest
    case None => FirstSequence
    case Some(s) =>
      match ParseDecimal(s)
      case Some(n) =>
        ParseZFillDecimal(n + 1, SequenceDigits);
        ZFill(Decimal(n + 1), SequenceDigits)
      case None => FirstSequence
  }

  /** `GenerateBatchNumberView.post`: `doa` and `year` are `None` when the request omits them. */
  function GenerateBatchNumber(batches: map<Pk, Batch>, doa: Option<string>, year: Option<string>): (r: Result<Allocation, string>)
    ensures r.Failure? <==> doa.None? || doa.value == [] || year.None? || year.value == []
    ensures r.Failure? ==> r.error == MissingInputError
    ensures r.Success? ==> r.value.doa == doa.value && r.value.year == year.value
    ensures r.Success? ==> r.value.batchNumber == ComposeBatchNumber(doa.value, year.value, r.value.sequence)
  {
    if doa.None? || doa.value == [] || year.None? || year.value == [] then Failure(MissingInputError)
    else
      var sequence := NextSequence(LatestSequence(batches, doa.value, year.value));
      Success(Allocation(ComposeBatchNumber(doa.value, year.value, sequence), doa.value, year.value, sequence))
  }

  /** The sequence a successful allocation proposes. */
  function AllocatedSequence(batches: map<Pk, Batch>, doa: string, year: string): string
    requires doa != [] && year != []
  {
    GenerateBatchNumber(batches, Some(doa), Some(year)).value.sequence
  }

  /** A group sequence that no other group sequence sorts after is the one the view picks. */
  lemma LatestIsGreatest(batches: map<Pk, Batch>, doa: string, year: string, k: Pk)
    requires k in batches && InGroup(batches[k], doa, year)
    requires forall j :: j in batches && InGroup(batches[j], doa, year) ==> LexLeq(batches[j].sequence, batches[k].sequence)
    ensures LatestSequence(batches, doa, year) == Some(batches[k].sequence)
  {
    var latest := LatestSequence(batches, doa, year);
    var j :| j in batches && InGroup(batches[j], doa, year) && batches[j].sequence == latest.value;
    var a, b := batches[k].sequence, latest.value;
    if a != b {
      assert LexLess(a, b) && LexLess(b, a);
      LexLessTransitive(a, b, a);
      LexLessIrreflexive(a);
    }
  }

  /** No batch of the group yet: the sequence is "001" and the number `doa/year/001`. */
  lemma FirstBatchOfGroup(batches: map<Pk, Batch>, doa: string, year: string)
    requires doa != [] && year != []
    requires forall k :: k in batches ==> !InGroup(batches[k], doa, year)
    ensures GenerateBatchNumber(batches, Some(doa), Some(year))
         == Success(Allocation(doa + "/" + year + "/001", doa, year, "001"))
  {
    var prefix := doa + "/" + year;
    assert prefix + "/" + "001" == prefix + "/001";
  }

  /**
   * A numeric latest sequence n gives the decimal form of n + 1 padded to at
   * least three characters, never cut, which parses back to n + 1.
   */
  lemma NextSequenceOfNumber(latest: string, n: nat)
    requires ParseDecimal(latest) == Some(n)
    ensures var r := NextSequence(Some(latest));
            && |r| == (if |Decimal(n + 1)| < 3 then 3 else |Decimal(n + 1)|)
            && r[|r| - |Decimal(n + 1)|..] == Decimal(n + 1)
            && (forall i :: 0 <= i < |r| - |Decimal(n + 1)| ==> r[i] == '0')
            && ParseDecimal(r) == Some(n + 1)
  {
    assert NextSequence(Some(latest)) == ZFill(Decimal(n + 1), SequenceDigits);
  }

  /**
   * While every sequence of the group is a three-digit string below "999",
   * the proposed sequence is new to the group.
   */
  lemma AllocationFreshBelow999(batches: map<Pk, Batch>, doa: string, year: string)
    requires doa != [] && year != []
    requires forall k :: k in batches && InGroup(batches[k], doa, year) ==>
               |batches[k].sequence| == 3 && AllDigits(batches[k].sequence) && Value(batches[k].sequence) < 999
    ensures forall k :: k in batches && InGroup(batches[k], doa, year) ==>
              batches[k].sequence != AllocatedSequence(batches, doa, year)
  {
    var latest := LatestSequence(batches, doa, year);
    if latest.Some? {
      var m := latest.value;
      var j :| j in batches && InGroup(batches[j], doa, year) && batches[j].sequence == m;
      assert |m| == 3 && AllDigits(m) && Value(m) < 999;
      assert ParseDecimal(m) == Some(Value(m));
      var r := NextSequence(latest);
      assert AllocatedSequence(batches, doa, year) == r;
      NextSequenceOfNumber(m, Value(m));
      DecimalBelow1000(Value(m) + 1);
      assert |r| == 3 && AllDigits(r) && Value(r) == Value(m) + 1;
      forall k | k in batches && InGroup(batches[k], doa, year)
        ensures batches[k].sequence != r
      {
        if batches[k].sequence == r {
          LexLessValue(r, m);
        }
      }
    }
  }

  /**
   * A group whose string-greatest sequence is not numeric falls back to
   * "001", even when "001" is already taken in the group. The two rows are
   * independent, so the table is one the unique number column admits.
   */
  lemma FallbackReissues001(doa: string, year: string, b1: Batch, b2: Batch)
    requires doa != [] && year != []
    ensures var taken := b1.(doa := doa, year := year, sequence := "001");
            var odd := b2.(doa := doa, year := year, sequence := "A01");
            AllocatedSequence(map[1 := taken, 2 := odd], doa, year) == "001"
    ensures b1.batchNumber != b2.batchNumber ==>
              UniqueBatchNumbers(map[1 := b1.(doa := doa, year := year, sequence := "001"),
                                     2 := b2.(doa := doa, year := year, sequence := "A01")])
  {
    var batches := map[1 := b1.(doa := doa, year := year, sequence := "001"),
                       2 := b2.(doa := doa, year := year, sequence := "A01")];
    assert LexLess("001", "A01");
    assert forall j :: j in batches ==> j == 1 || j == 2;
    if b1.batchNumber != b2.batchNumber {
      assert batches[1].batchNumber != batches[2].batchNumber;
    }
    LatestIsGreatest(batches, doa, year, 2);
    assert ParseDecimal("A01").None? by {
      assert !IsDigit("A01"[0]);
    }
    assert NextSequence(LatestSequence(batches, doa, year)) == "001";
  }

  // ---------------------------------------------------------------------------
  // Past 999: string order is not numeric order
  // ---------------------------------------------------------------------------

  /**
   * With "999" and "1000" in the group, "999" sorts last as a string, so the
   * allocator proposes "1000" again, although a batch already holds it. The
   * two rows are independent, so the table is one the unique number column
   * admits.
   */
  lemma AllocationReissues1000(doa: string, year: string, b1: Batch, b2: Batch)
    requires doa != [] && year != []
    ensures var old999 := b1.(doa := doa, year := year, sequence := "999");
            var old1000 := b2.(doa := doa, year := year, sequence := "1000");
            AllocatedSequence(map[1 := old999, 2 := old1000], doa, year) == "1000"
    ensures b1.batchNumber != b2.batchNumber ==>
              UniqueBatchNumbers(map[1 := b1.(doa := doa, year := year, sequence := "999"),
                                     2 := b2.(doa := doa, year := year, sequence := "1000")])
  {
    var batches := map[1 := b1.(doa := doa, year := year, sequence := "999"),
                       2 := b2.(doa := doa, year := year, sequence := "1000")];
    assert batches[1].sequence == "999" && batches[2].sequence == "1000";
    assert LexLess("1000", "999");
    assert forall j :: j in batches ==> j == 1 || j == 2;
    if b1.batchNumber != b2.batchNumber {
      assert batches[1].batchNumber != batches[2].batchNumber;
    }
    LatestIsGreatest(batches, doa, year, 1);
    NextAfter999();
    assert AllocatedSequence(batches, doa, year) == NextSequence(Some("999"));
  }

  /** The successor of "999" is "1000": four digits, which `zfill(3)` leaves alone. */
  lemma NextAfter999()
    ensures NextSequence(Some("999")) == "1000"
  {
    assert Value("999") == 999 by {
      assert "999"[..2] == "99" && "99"[..1] == "9" && "9"[..0] == [];
      assert Value("9") == 9;
      assert Value("99") == 99;
    }
    assert AllDigits("999");
    assert ParseDecimal("999") == Some(999);
    assert Decimal(1000) == "1000" by {
      assert Decimal(1) == "1";
      assert Decimal(10) == Decimal(1) + "0";
      assert Decimal(100) == Decimal(10) + "0";
    }
    assert ZFill("1000", SequenceDigits) == "1000";
  }

  /** The largest number among the numeric sequences of the group, or `None` when it has none. */
  function HighestNumber(batches: map<Pk, Batch>, doa: string, year: string): (r: Option<nat>)
    ensures r.None? <==> forall k :: k in batches && InGroup(batches[k], doa, year) ==> ParseDecimal(batches[k].sequence).None?
    ensures r.Some? ==> exists k :: k in batches && InGroup(batches[k], doa, year) && ParseDecimal(batches[k].sequence) == r
    ensures r.Some? ==> forall k :: k in batches && InGroup(batches[k], doa, year) && ParseDecimal(batches[k].sequence).Some? ==>
              ParseDecimal(batches[k].sequence).value <= r.value
    decreases |batches|
  {
    if batches == map[] then None
    else
      var k := LeastKey(batches.Keys);
      var b := batches[k];
      var others := batches - {k};
      assert others.Keys == batches.Keys - {k};
      assert forall j :: j in batches ==> j == k || j in others;
      var rest := HighestNumber(others, doa, year);
      var here := ParseDecimal(b.sequence);
      if !InGroup(b, doa, year) || here.None? then rest
      else if rest.None? || rest.value < here.value then here
      else rest
  }

  /**
   * The allocator with the sequences compared as numbers, the order the
   * allocator is meant to follow: one past the highest numeric sequence of
   * the group, padded to three digits.
   */
  function GenerateBatchNumberNumeric(batches: map<Pk, Batch>, doa: Option<string>, year: Option<string>): (r: Result<Allocation, string>)
    ensures r.Failure? <==> doa.None? || doa.value == [] || year.None? || year.value == []
    ensures r.Failure? ==> r.error == MissingInputError
    ensures r.Success? ==> r.value.doa == doa.value && r.value.year == year.value
    ensures r.Success? ==> r.value.batchNumber == ComposeBatchNumber(doa.value, year.value, r.value.sequence)
    ensures r.Success? ==> |r.value.sequence| >= SequenceDigits
    ensures r.Success? ==>
              var highest := HighestNumber(batches, doa.value, year.value);
              ParseDecimal(r.value.sequence) == Some(if highest.Some? then highest.value + 1 else 1)
  {
    if doa.None? || doa.value == [] || year.None? || year.value == [] then Failure(MissingInputError)
    else
      var next := match HighestNumber(batches, doa.value, year.value)
                  case Some(n) => n + 1
                  case None => 1;
      var sequence := ZFill(Decimal(next), SequenceDigits);
      ParseZFillDecimal(next, SequenceDigits);
      Success(Allocation(ComposeBatchNumber(doa.value, year.value, sequence), doa.value, year.value, sequence))
  }

  /** Compared as numbers, the proposed sequence is new to the group, whatever the group holds. */
  lemma NumericAllocationFresh(batches: map<Pk, Batch>, doa: string, year: string)
    requires doa != [] && year != []
    ensures var r := GenerateBatchNumberNumeric(batches, Some(doa), Some(year)).value.sequence;
            forall k :: k in batches && InGroup(batches[k], doa, year) ==> batches[k].sequence != r
  {
    var highest := HighestNumber(batches, doa, year);
    var next := if highest.Some? then highest.value + 1 else 1;
    ParseZFillDecimal(next, SequenceDigits);
  }

  // ---------------------------------------------------------------------------
  // Lookup by batch number
  // ---------------------------------------------------------------------------

  /** `lookup_field = 'batch_number'`: the one row whose number equals the key exactly, if any. */
  function FindByNumber(batches: map<Pk, Batch>, number: string): (r: Option<Pk>)
    requires UniqueBatchNumbers(batches)
    ensures r.Some? ==> r.value in batches && batches[r.value].batchNumber == number
    ensures r.Some? ==> forall k :: k in batches && batches[k].batchNumber == number ==> k == r.value
    ensures r.None? ==> forall k :: k in batches ==> batches[k].batchNumber != number
  {
    if exists k :: k in batches && batches[k].batchNumber == number then
      var k :| k in batches && batches[k].batchNumber == number;
      Some(k)
    else None
  }

  /** A row just written under a unique number is the row the lookup by that number finds. */
  lemma LookupFindsWrittenRow(batches: map<Pk, Batch>, pk: Pk, b: Batch)
    requires UniqueBatchNumbers(batches[pk := b])
    ensures FindByNumber(batches[pk := b], b.batchNumber) == Some(pk)
  {
    assert pk in batches[pk := b] && batches[pk := b][pk].batchNumber == b.batchNumber;
  }

  /** Removing the row the lookup finds removes every row holding that number, and only those. */
  lemma RemoveFoundRow(batches: map<Pk, Batch>, number: string)
    requires UniqueBatchNumbers(batches)
    ensures FindByNumber(batches, number).Some? ==>
              batches - {FindByNumber(batches, number).value} == WithoutNumber(batches, number)
    ensures FindByNumber(batches, number).None? ==> batches == WithoutNumber(batches, number)
  {
    var found := FindByNumber(batches, number);
    var kept := WithoutNumber(batches, number);
    if found.Some? {
      assert (batches - {found.value}).Keys == kept.Keys;
    } else {
      assert batches.Keys == kept.Keys;
    }
  }

  // ---------------------------------------------------------------------------
  // Routing of the detail view
  // ---------------------------------------------------------------------------

  const DetailPrefix := "batches/"

  /** The URL path of the detail view for a batch number. */
  function DetailUrl(number: string): (url: string)
    ensures |url| == |DetailPrefix| + |number| + 1
  {
    DetailPrefix + number + "/"
  }

  /**
   * The batch number the route `batches/<converter:batch_number>/` extracts
   * from a URL path: Django's `str` converter (`slashes` false) matches a
   * non-empty segment without '/', its `path` converter (`slashes` true) any
   * non-empty string.
   */
  function RouteBatchNumber(url: string, slashes: bool): (r: Option<string>)
    ensures r.Some? ==> url == DetailUrl(r.value) && r.value != [] && (slashes || '/' !in r.value)
  {
    if |url| > |DetailPrefix| + 1 && url[..|DetailPrefix|] == DetailPrefix && url[|url| - 1] == '/' then
      var number := url[|DetailPrefix|..|url| - 1];
      assert url == DetailPrefix + number + "/";
      if slashes || '/' !in number then Some(number) else None
    else None
  }

  /** With either converter, a number that fits it is extracted from its own URL unchanged. */
  lemma RouteFindsNumber(number: string, slashes: bool)
    requires number != [] && (slashes || '/' !in number)
    ensures RouteBatchNumber(DetailUrl(number), slashes) == Some(number)
  {
    var url := DetailUrl(number);
    assert url[..|DetailPrefix|] == DetailPrefix;
    assert url[|DetailPrefix|..|url| - 1] == number;
  }

  /** The `str` route cannot reach any composed batch number: each holds a '/'. */
  lemma StrRouteMissesComposedNumber(doa: string, year: string, sequence: string)
    ensures RouteBatchNumber(DetailUrl(ComposeBatchNumber(doa, year, sequence)), false).None?
  {
    var number := ComposeBatchNumber(doa, year, sequence);
    assert number[|doa|] == '/';
  }

  /** The `path` route reaches every composed batch number. */
  lemma PathRouteFindsComposedNumber(doa: string, year: string, sequence: string)
    ensures RouteBatchNumber(DetailUrl(ComposeBatchNumber(doa, year, sequence)), true)
         == Some(ComposeBatchNumber(doa, year, sequence))
  {
    RouteFindsNumber(ComposeBatchNumber(doa, year, sequence), true);
  }
}
