/**
 * The rules of agri/serializers.py: the compliance gate of
 * `BatchSerializer.validate`, the primary-key relation of
 * `contributing_farmers`, and the prefixed, zero-padded IDs that the four
 * entity serializers assign in `create` when the caller gives none.
 */
module Serializers {
  import opened Wrappers
  import opened Text
  import opened Models

  const ChildLaborMessage := "Batch must be confirmed to be produced with ZERO child labor"
  const DeforestationMessage := "Batch must be confirmed to be produced with ZERO deforestation"

  /**
   * The incoming batch data: a field the request leaves out is `None`.
   * A create must carry every required field; a partial update any subset.
   */
  datatype BatchPayload = BatchPayload(
    batchNumber: Option<string>,
    doa: Option<string>,
    year: Option<string>,
    sequence: Option<string>,
    collectionCenter: Option<Pk>,
    processingFacility: Option<Pk>,
    packagingCenter: Option<Pk>,
    contributingFarmers: Option<seq<Pk>>,
    packagingDate: Option<Date>,
    expiryDate: Option<Date>,
    zeroChildLabor: Option<bool>,
    zeroDeforestation: Option<bool>)

  /** Python truthiness of `data.get(flag)`: an absent flag reads as `None`, which is false. */
  predicate Confirmed(flag: Option<bool>)
  {
    flag == Some(true)
  }

  /**
   * `BatchSerializer.validate`: child labour is checked first, deforestation
   * second; only the incoming data is looked at, and it is returned unchanged.
   */
  function Validate(data: BatchPayload): (r: Result<BatchPayload, string>)
    ensures r.Success? <==> Confirmed(data.zeroChildLabor) && Confirmed(data.zeroDeforestation)
    ensures r.Success? ==> r.value == data
    ensures !Confirmed(data.zeroChildLabor) ==> r == Failure(ChildLaborMessage)
    ensures Confirmed(data.zeroChildLabor) && !Confirmed(data.zeroDeforestation) ==> r == Failure(DeforestationMessage)
  {
    if !Confirmed(data.zeroChildLabor) then Failure(ChildLaborMessage)
    else if !Confirmed(data.zeroDeforestation) then Failure(DeforestationMessage)
    else Success(data)
  }

  /** Both flags false: the child-labour message wins because it is checked first. */
  lemma ValidateReportsChildLaborFirst(data: BatchPayload)
    requires data.zeroChildLabor != Some(true) && data.zeroDeforestation != Some(true)
    ensures Validate(data) == Failure(ChildLaborMessage)
    ensures Validate(data) != Failure(DeforestationMessage)
  {
  }

  /** `contributing_farmers` is a primary-key relation: the first entry with no farmer row, if any. */
  function UnknownFarmer(farmers: set<Pk>, given: seq<Pk>): (r: Option<Pk>)
    ensures r.None? <==> forall i :: 0 <= i < |given| ==> given[i] in farmers
    ensures r.Some? ==> r.value in given && r.value !in farmers
    ensures r.Some? ==> exists i :: 0 <= i < |given| && given[i] == r.value && forall j :: 0 <= j < i ==> given[j] in farmers
  {
    if given == [] then None
    else if given[0] !in farmers then Some(given[0])
    else
      UnknownFarmer(farmers, given[1..])
  }

  // ---------------------------------------------------------------------------
  // Human-readable IDs of the four entity tables
  // ---------------------------------------------------------------------------

  const FarmerPrefix := "F"
  const CollectionCenterPrefix := "CC"
  const ProcessingFacilityPrefix := "PF"
  const PackagingCenterPrefix := "PC"

  /** The running number an ID generated now carries: one past the highest primary key, or 1. */
  function NextNumber(pks: set<Pk>): (n: nat)
    ensures n >= 1
    ensures forall k :: k in pks ==> k < n
    ensures pks != {} ==> n - 1 in pks
    ensures pks == {} ==> n == 1
  {
    if pks == {} then 1 else GreatestKey(pks) + 1
  }

  /**
   * The ID `create` generates: `prefix + str(latest.id + 1).zfill(3)`, or
   * `prefix + "001"` when the table is empty. Reading the digits back gives
   * the running number, which exceeds every existing primary key.
   */
  function NextEntityId(prefix: string, pks: set<Pk>): (r: string)
    ensures |r| >= |prefix| + 3 && r[..|prefix|] == prefix
    ensures ParseDecimal(r[|prefix|..]) == Some(NextNumber(pks))
    ensures |r| == |prefix| + (if |Decimal(NextNumber(pks))| < 3 then 3 else |Decimal(NextNumber(pks))|)
    ensures pks == {} ==> r == prefix + "001"
  {
    if pks == {} then
      assert (prefix + "001")[|prefix|..] == ZFill(Decimal(1), 3);
      ParseZFillDecimal(1, 3);
      prefix + "001"
    else
      var digits := ZFill(Decimal(GreatestKey(pks) + 1), 3);
      ParseZFillDecimal(GreatestKey(pks) + 1, 3);
      assert (prefix + digits)[|prefix|..] == digits;
      prefix + digits
  }

  /** The ID a created row gets: the one supplied, kept unchanged, or a generated one. */
  function AssignedId(supplied: Option<string>, prefix: string, pks: set<Pk>): (r: string)
    ensures supplied.Some? ==> r == supplied.value
    ensures supplied.None? ==> |r| >= |prefix| + 3 && r[..|prefix|] == prefix && ParseDecimal(r[|prefix|..]) == Some(NextNumber(pks))
    ensures supplied.None? ==>
              |r| == |prefix| + (if |Decimal(NextNumber(pks))| < 3 then 3 else |Decimal(NextNumber(pks))|)
    ensures supplied.None? && pks == {} ==> r == prefix + "001"
  {
    match supplied
    case Some(id) => id
    case None => NextEntityId(prefix, pks)
  }
}
