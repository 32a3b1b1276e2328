/**
 * The records of the traceability service (agri/models.py): farmers, the
 * three kinds of facility, and batches; the batch-number composition rule of
 * `Batch.save`; and what the `CASCADE` foreign keys and the many-to-many
 * farmer link do to the batch table when a referenced row is deleted.
 *
 * Every table maps Django's auto primary key to a record.
 */
module Models {
  import opened Wrappers
  import opened Text

  /** Django's automatic integer primary key. */
  type Pk = nat

  /** A calendar date, as a day number; the model only stores and compares them. */
  type Date = int

  datatype Gender = Male | Female | OtherGender

  datatype Certification = Organic | FairTrade | NoCertification

  datatype DryingMethod = SunDried | Mechanical | ControlledDrying

  datatype Farmer = Farmer(
    farmerId: string,
    name: string,
    gender: Gender,
    age: Option<nat>,
    yearsInFarming: Option<nat>,
    region: string,
    certification: Certification,
    status: bool)

  datatype CollectionCenter = CollectionCenter(
    centerId: string,
    name: string,
    location: string,
    coordinates: Option<string>,
    manager: Option<string>,
    contact: Option<string>,
    dryingMethod: DryingMethod,
    status: bool)

  datatype ProcessingFacility = ProcessingFacility(
    facilityId: string,
    name: string,
    location: string,
    coordinates: Option<string>,
    manager: Option<string>,
    contact: Option<string>,
    haccpCertified: bool,
    iso22000Certified: bool,
    fairTradeCertified: bool,
    organicCertified: bool,
    status: bool)

  datatype PackagingCenter = PackagingCenter(
    centerId: string,
    name: string,
    location: string,
    status: bool)

  /** A batch row: the three facility columns are foreign keys, the farmer set a many-to-many link. */
  datatype Batch = Batch(
    batchNumber: string,
    doa: string,
    year: string,
    sequence: string,
    collectionCenter: Pk,
    processingFacility: Pk,
    packagingCenter: Pk,
    contributingFarmers: set<Pk>,
    packagingDate: Date,
    expiryDate: Date,
    zeroChildLabor: bool,
    zeroDeforestation: bool)

  /** Column widths (`max_length`) of the batch table. */
  const BatchNumberWidth: nat := 20
  const DoaWidth: nat := 4
  const YearWidth: nat := 4
  const SequenceWidth: nat := 10

  /** Both compliance flags default to false in the batch table. */
  const ComplianceDefault: bool := false

  /** A batch as its compliance gate requires it: both attestations made. */
  predicate Compliant(b: Batch)
  {
    b.zeroChildLabor && b.zeroDeforestation
  }

  /** Every stored batch passed the compliance gate. */
  predicate AllRowsCompliant(t: map<Pk, Batch>)
  {
    forall k :: k in t ==> Compliant(t[k])
  }

  /** Writing a compliant row keeps every row compliant. */
  lemma WriteKeepsCompliant(t: map<Pk, Batch>, k: Pk, row: Batch)
    requires AllRowsCompliant(t) && Compliant(row)
    ensures AllRowsCompliant(t[k := row])
  {
  }

  // ---------------------------------------------------------------------------
  // Batch numbers
  // ---------------------------------------------------------------------------

  /** The batch number `doa/year/sequence`. */
  function ComposeBatchNumber(doa: string, year: string, sequence: string): (r: string)
    ensures |r| == |doa| + |year| + |sequence| + 2
  {
    doa + "/" + year + "/" + sequence
  }

  /** A number composed from parts that fit their columns fits the 20-character batch-number column. */
  lemma ComposedNumberFitsColumn(doa: string, year: string, sequence: string)
    requires |doa| <= DoaWidth && |year| <= YearWidth && |sequence| <= SequenceWidth
    ensures |ComposeBatchNumber(doa, year, sequence)| <= BatchNumberWidth
  {
  }

  /** Splitting a composed number on '/' gives back its three parts when none of them holds a '/'. */
  lemma ComposedNumberSplits(doa: string, year: string, sequence: string)
    requires '/' !in doa && '/' !in year && '/' !in sequence
    ensures Split(ComposeBatchNumber(doa, year, sequence), '/') == [doa, year, sequence]
  {
    assert ComposeBatchNumber(doa, year, sequence) == doa + ['/'] + (year + ['/'] + sequence);
    SplitAtFirstSeparator(doa, '/', year + ['/'] + sequence);
    SplitAtFirstSeparator(year, '/', sequence);
    SplitWithoutSeparator(sequence, '/');
  }

  /** The in-place step of `Batch.save`: an empty batch number is filled in from doa, year and sequence. */
  function FillBatchNumber(b: Batch): (r: Batch)
    ensures r.batchNumber != []
    ensures b.batchNumber != [] ==> r == b
    ensures b.batchNumber == [] ==> r == b.(batchNumber := ComposeBatchNumber(b.doa, b.year, b.sequence))
  {
    if b.batchNumber == [] then b.(batchNumber := ComposeBatchNumber(b.doa, b.year, b.sequence)) else b
  }

  /** Saving twice is saving once: a filled number is never recomputed. */
  lemma {:induction false} FillBatchNumberIdempotent(b: Batch)
    ensures FillBatchNumber(FillBatchNumber(b)) == FillBatchNumber(b)
  {
    var once := FillBatchNumber(b);
    assert once.batchNumber != [];
  }

  // ---------------------------------------------------------------------------
  // Table invariants (the unique columns and the foreign keys)
  // ---------------------------------------------------------------------------

  ghost predicate UniqueFarmerIds(t: map<Pk, Farmer>)
  {
    forall i, j :: i in t && j in t && i != j ==> t[i].farmerId != t[j].farmerId
  }

  ghost predicate UniqueCollectionCenterIds(t: map<Pk, CollectionCenter>)
  {
    forall i, j :: i in t && j in t && i != j ==> t[i].centerId != t[j].centerId
  }

  ghost predicate UniqueFacilityIds(t: map<Pk, ProcessingFacility>)
  {
    forall i, j :: i in t && j in t && i != j ==> t[i].facilityId != t[j].facilityId
  }

  ghost predicate UniquePackagingCenterIds(t: map<Pk, PackagingCenter>)
  {
    forall i, j :: i in t && j in t && i != j ==> t[i].centerId != t[j].centerId
  }

  ghost predicate UniqueBatchNumbers(t: map<Pk, Batch>)
  {
    forall i, j :: i in t && j in t && i != j ==> t[i].batchNumber != t[j].batchNumber
  }

  /** The farmer table: keys below its sequence, unique `farmer_id`s. */
  ghost predicate FarmerTableValid(t: map<Pk, Farmer>, next: Pk)
  {
    (forall k :: k in t ==> k < next) && UniqueFarmerIds(t)
  }

  /** The collection-centre table: keys below its sequence, unique `center_id`s. */
  ghost predicate CollectionCenterTableValid(t: map<Pk, CollectionCenter>, next: Pk)
  {
    (forall k :: k in t ==> k < next) && UniqueCollectionCenterIds(t)
  }

  /** The processing-facility table: keys below its sequence, unique `facility_id`s. */
  ghost predicate FacilityTableValid(t: map<Pk, ProcessingFacility>, next: Pk)
  {
    (forall k :: k in t ==> k < next) && UniqueFacilityIds(t)
  }

  /** The packaging-centre table: keys below its sequence, unique `center_id`s. */
  ghost predicate PackagingCenterTableValid(t: map<Pk, PackagingCenter>, next: Pk)
  {
    (forall k :: k in t ==> k < next) && UniquePackagingCenterIds(t)
  }

  /** Some row other than `except` already holds `number`. */
  predicate NumberTaken(t: map<Pk, Batch>, number: string, except: Option<Pk>)
  {
    exists k :: k in t && Some(k) != except && t[k].batchNumber == number
  }

  /** The batch table without the rows that hold `number`. */
  function WithoutNumber(batches: map<Pk, Batch>, number: string): (r: map<Pk, Batch>)
    ensures forall k :: k in r <==> k in batches && batches[k].batchNumber != number
    ensures forall k :: k in r ==> r[k] == batches[k]
  {
    map k | k in batches && batches[k].batchNumber != number :: batches[k]
  }

  // ---------------------------------------------------------------------------
  // Deletion through the foreign keys
  // ---------------------------------------------------------------------------

  /** The three `on_delete=CASCADE` columns of a batch. */
  datatype FacilityColumn = CollectionCenterColumn | ProcessingFacilityColumn | PackagingCenterColumn

  function FacilityOf(b: Batch, column: FacilityColumn): Pk
  {
    match column
    case CollectionCenterColumn => b.collectionCenter
    case ProcessingFacilityColumn => b.processingFacility
    case PackagingCenterColumn => b.packagingCenter
  }

  /** The batch table after the row `pk` of a facility table is deleted: its batches go with it. */
  function CascadeDelete(batches: map<Pk, Batch>, column: FacilityColumn, pk: Pk): (r: map<Pk, Batch>)
    ensures forall k :: k in r ==> k in batches && r[k] == batches[k] && FacilityOf(r[k], column) != pk
    ensures forall k :: k in batches && FacilityOf(batches[k], column) != pk ==> k in r
  {
    map k | k in batches && FacilityOf(batches[k], column) != pk :: batches[k]
  }

  /** The batch table after the farmer `pk` is deleted: the link rows go, every batch stays. */
  function UnlinkFarmer(batches: map<Pk, Batch>, pk: Pk): (r: map<Pk, Batch>)
    ensures r.Keys == batches.Keys
    ensures forall k :: k in r ==> pk !in r[k].contributingFarmers
    ensures forall k :: k in r ==> r[k].contributingFarmers + {pk} >= batches[k].contributingFarmers
    ensures forall k :: k in r ==> r[k] == batches[k].(contributingFarmers := r[k].contributingFarmers)
    ensures forall k :: k in r ==> r[k].contributingFarmers <= batches[k].contributingFarmers
  {
    map k | k in batches :: batches[k].(contributingFarmers := batches[k].contributingFarmers - {pk})
  }

  // ---------------------------------------------------------------------------
  // The batch table's invariant, and the writes that keep it
  // ---------------------------------------------------------------------------

  /** The foreign keys and the farmer links of `b` name rows of the given tables. */
  predicate RefsIn(b: Batch, farmers: set<Pk>, centers: set<Pk>, facilities: set<Pk>, packaging: set<Pk>)
  {
    && b.collectionCenter in centers && b.processingFacility in facilities && b.packagingCenter in packaging
    && b.contributingFarmers <= farmers
  }

  /** Keys below the sequence, unique saved numbers, and references into the given tables. */
  ghost predicate BatchTableValid(t: map<Pk, Batch>, next: Pk, farmers: set<Pk>, centers: set<Pk>, facilities: set<Pk>, packaging: set<Pk>)
  {
    && (forall k :: k in t ==> k < next)
    && UniqueBatchNumbers(t)
    && (forall k :: k in t ==> t[k].batchNumber != [] && RefsIn(t[k], farmers, centers, facilities, packaging))
  }

  /**
   * Writing a saved row under key `k`, where no other row holds its number, keeps the table valid;
   * the sequence may advance to `next'` (an insert takes `k == next` and moves on to `next + 1`).
   */
  lemma WriteKeepsBatchTable(t: map<Pk, Batch>, next: Pk, next': Pk, farmers: set<Pk>, centers: set<Pk>, facilities: set<Pk>,
                             packaging: set<Pk>, k: Pk, row: Batch)
    requires BatchTableValid(t, next, farmers, centers, facilities, packaging)
    requires next <= next' && k < next' && row.batchNumber != [] && RefsIn(row, farmers, centers, facilities, packaging)
    requires !NumberTaken(t, row.batchNumber, Some(k))
    ensures BatchTableValid(t[k := row], next', farmers, centers, facilities, packaging)
  {
    var u := t[k := row];
    forall i, j | i in u && j in u && i != j ensures u[i].batchNumber != u[j].batchNumber {
      if i == k {
        assert j in t && Some(j) != Some(k);
      } else if j == k {
        assert i in t && Some(i) != Some(k);
      }
    }
  }

  /** Removing the rows that hold a number keeps the table valid. */
  lemma RemoveKeepsBatchTable(t: map<Pk, Batch>, next: Pk, farmers: set<Pk>, centers: set<Pk>, facilities: set<Pk>, packaging: set<Pk>,
                              number: string)
    requires BatchTableValid(t, next, farmers, centers, facilities, packaging)
    ensures BatchTableValid(WithoutNumber(t, number), next, farmers, centers, facilities, packaging)
  {
  }

  /** Deleting facility row `pk` together with its batches keeps the table valid over the smaller table. */
  lemma CascadeKeepsBatchTable(t: map<Pk, Batch>, next: Pk, farmers: set<Pk>, centers: set<Pk>, facilities: set<Pk>, packaging: set<Pk>,
                               column: FacilityColumn, pk: Pk)
    requires BatchTableValid(t, next, farmers, centers, facilities, packaging)
    ensures BatchTableValid(CascadeDelete(t, column, pk), next, farmers,
                            if column == CollectionCenterColumn then centers - {pk} else centers,
                            if column == ProcessingFacilityColumn then facilities - {pk} else facilities,
                            if column == PackagingCenterColumn then packaging - {pk} else packaging)
  {
  }

  /** Deleting farmer `pk` and unlinking it keeps the table valid over the smaller farmer table. */
  lemma UnlinkKeepsBatchTable(t: map<Pk, Batch>, next: Pk, farmers: set<Pk>, centers: set<Pk>, facilities: set<Pk>, packaging: set<Pk>,
                              pk: Pk)
    requires BatchTableValid(t, next, farmers, centers, facilities, packaging)
    ensures BatchTableValid(UnlinkFarmer(t, pk), next, farmers - {pk}, centers, facilities, packaging)
  {
  }

  // ---------------------------------------------------------------------------
  // Primary keys: the first and the last row of a table
  // ---------------------------------------------------------------------------

  /** A set of naturals holding `x` has a least element, found by descending from `x`. */
  lemma {:induction false} HasLeast(s: set<Pk>, x: Pk)
    requires x in s
    ensures exists k :: k in s && forall j :: j in s ==> k <= j
    decreases x
  {
    if exists y :: y in s && y < x {
      var y :| y in s && y < x;
      HasLeast(s, y);
    } else {
      assert forall j :: j in s ==> x <= j;
    }
  }

  /** A finite non-empty set of naturals has a greatest element. */
  lemma {:induction false} HasGreatest(s: set<Pk>)
    requires s != {}
    ensures exists k :: k in s && forall j :: j in s ==> j <= k
    decreases s
  {
    var x :| x in s;
    var rest := s - {x};
    if rest == {} {
      assert s == {x};
    } else {
      HasGreatest(rest);
      var m :| m in rest && forall j :: j in rest ==> j <= m;
      var top := if m < x then x else m;
      forall j | j in s ensures j <= top {
        if j != x { assert j in rest; }
      }
      assert top in s;
    }
  }

  /** The lowest primary key: the order in which a table scan visits rows. */
  function LeastKey(s: set<Pk>): (k: Pk)
    requires s != {}
    ensures k in s && forall j :: j in s ==> k <= j
  {
    var x :| x in s;
    HasLeast(s, x);
    var k :| k in s && forall j :: j in s ==> k <= j;
    k
  }

  /** The highest primary key: `order_by('-id').first()`. */
  function GreatestKey(s: set<Pk>): (k: Pk)
    requires s != {}
    ensures k in s && forall j :: j in s ==> j <= k
  {
    HasGreatest(s);
    var k :| k in s && forall j :: j in s ==> j <= k;
    k
  }
}
