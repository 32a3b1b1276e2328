/**
 * The batch registry: the five tables of the service and the operations that
 * change them. Creating a row goes through the serializer rules (ID
 * assignment, the farmer relation, the compliance gate) and `Batch.save`;
 * deleting a facility cascades to its batches, deleting a farmer unlinks it.
 */
module Registry {
  import opened Wrappers
  import opened Text
  import opened Models
  import opened Serializers
  import opened Views

  datatype Error =
    | MissingField(field: string)
    | UnknownReference(field: string, pk: Pk)
    | Invalid(message: string)
    | Duplicate(field: string)
    | NotFound

  // ---------------------------------------------------------------------------
  // From a request payload to a batch row
  // ---------------------------------------------------------------------------

  /** Every field a create must carry (the batch number and the two flags may be left out). */
  predicate Complete(p: BatchPayload)
  {
    && p.doa.Some? && p.year.Some? && p.sequence.Some?
    && p.collectionCenter.Some? && p.processingFacility.Some? && p.packagingCenter.Some?
    && p.contributingFarmers.Some? && p.packagingDate.Some? && p.expiryDate.Some?
  }

  /** The first required field, in column order, that a create payload leaves out. */
  function MissingBatchField(p: BatchPayload): (r: Option<string>)
    ensures r.None? <==> Complete(p)
    ensures p.doa.None? ==> r == Some("doa")
    ensures (p.doa.Some? && p.year.None?) ==> r == Some("year")
    ensures (p.doa.Some? && p.year.Some? && p.sequence.None?) ==> r == Some("sequence")
    ensures (p.doa.Some? && p.year.Some? && p.sequence.Some? && p.collectionCenter.None?) ==>
              r == Some("collection_center")
    ensures (p.doa.Some? && p.year.Some? && p.sequence.Some? && p.collectionCenter.Some?
             && p.processingFacility.None?) ==>
              r == Some("processing_facility")
    ensures (p.doa.Some? && p.year.Some? && p.sequence.Some? && p.collectionCenter.Some?
             && p.processingFacility.Some? && p.packagingCenter.None?) ==>
              r == Some("packaging_center")
    ensures (p.doa.Some? && p.year.Some? && p.sequence.Some? && p.collectionCenter.Some?
             && p.processingFacility.Some? && p.packagingCenter.Some? && p.contributingFarmers.None?) ==>
              r == Some("contributing_farmers")
    ensures (p.doa.Some? && p.year.Some? && p.sequence.Some? && p.collectionCenter.Some?
             && p.processingFacility.Some? && p.packagingCenter.Some? && p.contributingFarmers.Some?
             && p.packagingDate.None?) ==>
              r == Some("packaging_date")
    ensures (p.doa.Some? && p.year.Some? && p.sequence.Some? && p.collectionCenter.Some?
             && p.processingFacility.Some? && p.packagingCenter.Some? && p.contributingFarmers.Some?
             && p.packagingDate.Some? && p.expiryDate.None?) ==>
              r == Some("expiry_date")
  {
    if p.doa.None? then Some("doa")
    else if p.year.None? then Some("year")
    else if p.sequence.None? then Some("sequence")
    else if p.collectionCenter.None? then Some("collection_center")
    else if p.processingFacility.None? then Some("processing_facility")
    else if p.packagingCenter.None? then Some("packaging_center")
    else if p.contributingFarmers.None? then Some("contributing_farmers")
    else if p.packagingDate.None? then Some("packaging_date")
    else if p.expiryDate.None? then Some("expiry_date")
    else None
  }

  function FarmerSet(given: seq<Pk>): (s: set<Pk>)
    ensures forall f :: f in s <==> f in given
  {
    set f | f in given
  }

  /** The row a create payload becomes before `save`: left-out flags take the column default. */
  function NewBatch(p: BatchPayload): (b: Batch)
    requires Complete(p)
    ensures b.zeroChildLabor == (p.zeroChildLabor == Some(true))
    ensures b.zeroDeforestation == (p.zeroDeforestation == Some(true))
    ensures b.batchNumber == [] <==> p.batchNumber.None? || p.batchNumber.value == []
    ensures p.batchNumber.Some? ==> b.batchNumber == p.batchNumber.value
    ensures b.doa == p.doa.value && b.year == p.year.value && b.sequence == p.sequence.value
    ensures b.collectionCenter == p.collectionCenter.value
    ensures b.processingFacility == p.processingFacility.value
    ensures b.packagingCenter == p.packagingCenter.value
    ensures forall f :: f in b.contributingFarmers <==> f in p.contributingFarmers.value
    ensures b.packagingDate == p.packagingDate.value && b.expiryDate == p.expiryDate.value
  {
    Batch(p.batchNumber.GetOr(""), p.doa.value, p.year.value, p.sequence.value,
          p.collectionCenter.value, p.processingFacility.value, p.packagingCenter.value,
          FarmerSet(p.contributingFarmers.value), p.packagingDate.value, p.expiryDate.value,
          p.zeroChildLabor.GetOr(ComplianceDefault), p.zeroDeforestation.GetOr(ComplianceDefault))
  }

  /** A batch created without the flags starts non-compliant, and the gate turns it away. */
  lemma NewBatchWithoutFlagsNonCompliant(p: BatchPayload)
    requires Complete(p) && p.zeroChildLabor.None? && p.zeroDeforestation.None?
    ensures !NewBatch(p).zeroChildLabor && !NewBatch(p).zeroDeforestation
    ensures Validate(p) == Failure(ChildLaborMessage)
  {
  }

  /** A partial update: the fields the payload carries replace the stored ones. */
  function ApplyPatch(b: Batch, p: BatchPayload): (r: Batch)
    ensures p == BatchPayload(None, None, None, None, None, None, None, None, None, None, None, None) ==> r == b
    ensures r.batchNumber == if p.batchNumber.Some? then p.batchNumber.value else b.batchNumber
    ensures r.doa == if p.doa.Some? then p.doa.value else b.doa
    ensures r.year == if p.year.Some? then p.year.value else b.year
    ensures r.sequence == if p.sequence.Some? then p.sequence.value else b.sequence
    ensures r.collectionCenter == if p.collectionCenter.Some? then p.collectionCenter.value else b.collectionCenter
    ensures r.processingFacility == if p.processingFacility.Some? then p.processingFacility.value else b.processingFacility
    ensures r.packagingCenter == if p.packagingCenter.Some? then p.packagingCenter.value else b.packagingCenter
    ensures p.contributingFarmers.None? ==> r.contributingFarmers == b.contributingFarmers
    ensures p.contributingFarmers.Some? ==>
              forall f :: f in r.contributingFarmers <==> f in p.contributingFarmers.value
    ensures r.packagingDate == if p.packagingDate.Some? then p.packagingDate.value else b.packagingDate
    ensures r.expiryDate == if p.expiryDate.Some? then p.expiryDate.value else b.expiryDate
    ensures r.zeroChildLabor == if p.zeroChildLabor.Some? then p.zeroChildLabor.value else b.zeroChildLabor
    ensures r.zeroDeforestation == if p.zeroDeforestation.Some? then p.zeroDeforestation.value else b.zeroDeforestation
  {
    Batch(p.batchNumber.GetOr(b.batchNumber), p.doa.GetOr(b.doa), p.year.GetOr(b.year),
          p.sequence.GetOr(b.sequence),
          p.collectionCenter.GetOr(b.collectionCenter), p.processingFacility.GetOr(b.processingFacility),
          p.packagingCenter.GetOr(b.packagingCenter),
          if p.contributingFarmers.Some? then FarmerSet(p.contributingFarmers.value) else b.contributingFarmers,
          p.packagingDate.GetOr(b.packagingDate), p.expiryDate.GetOr(b.expiryDate),
          p.zeroChildLabor.GetOr(b.zeroChildLabor), p.zeroDeforestation.GetOr(b.zeroDeforestation))
  }

  /**
   * Create followed by lookup: a row written under a unique number is found
   * by that number, and it carries the payload's columns, with the number
   * supplied or the one `save` composed.
   */
  lemma CreatedBatchFoundByNumber(batches: map<Pk, Batch>, pk: Pk, p: BatchPayload)
    requires Complete(p)
    requires UniqueBatchNumbers(batches[pk := FillBatchNumber(NewBatch(p))])
    ensures var t := batches[pk := FillBatchNumber(NewBatch(p))];
            var found := FindByNumber(t, t[pk].batchNumber);
            && found == Some(pk)
            && t[found.value].doa == p.doa.value && t[found.value].year == p.year.value
            && t[found.value].sequence == p.sequence.value
            && t[found.value].collectionCenter == p.collectionCenter.value
            && t[found.value].processingFacility == p.processingFacility.value
            && t[found.value].packagingCenter == p.packagingCenter.value
            && (forall f :: f in t[found.value].contributingFarmers <==> f in p.contributingFarmers.value)
            && t[found.value].packagingDate == p.packagingDate.value
            && t[found.value].expiryDate == p.expiryDate.value
            && t[found.value].zeroChildLabor == Confirmed(p.zeroChildLabor)
            && t[found.value].zeroDeforestation == Confirmed(p.zeroDeforestation)
            && t[found.value].batchNumber ==
                 if p.batchNumber.Some? && p.batchNumber.value != [] then p.batchNumber.value
                 else ComposeBatchNumber(p.doa.value, p.year.value, p.sequence.value)
  {
    LookupFindsWrittenRow(batches, pk, FillBatchNumber(NewBatch(p)));
  }

  /**
   * A full update that carries every column, the number and both flags
   * included, replaces the whole row: the result does not depend on the
   * stored row and is the row a create makes from the same payload.
   */
  lemma FullUpdateIsCreate(b: Batch, p: BatchPayload)
    requires Complete(p) && p.batchNumber.Some?
    requires p.zeroChildLabor.Some? && p.zeroDeforestation.Some?
    ensures ApplyPatch(b, p) == NewBatch(p)
  {
    var r, n := ApplyPatch(b, p), NewBatch(p);
    assert r.contributingFarmers == n.contributingFarmers;
  }

  /** Every reference the payload carries names an existing row. */
  predicate ReferencesResolve(p: BatchPayload, farmers: set<Pk>, centers: set<Pk>, facilities: set<Pk>, packaging: set<Pk>)
  {
    && (p.collectionCenter.Some? ==> p.collectionCenter.value in centers)
    && (p.processingFacility.Some? ==> p.processingFacility.value in facilities)
    && (p.packagingCenter.Some? ==> p.packagingCenter.value in packaging)
    && (p.contributingFarmers.Some? ==> forall i :: 0 <= i < |p.contributingFarmers.value| ==> p.contributingFarmers.value[i] in farmers)
  }

  /** The first reference, in column order, that names no row. */
  function ReferenceError(p: BatchPayload, farmers: set<Pk>, centers: set<Pk>, facilities: set<Pk>, packaging: set<Pk>): (r: Option<Error>)
    ensures r.None? <==> ReferencesResolve(p, farmers, centers, facilities, packaging)
    ensures r.Some? ==> r.value.UnknownReference?
  {
    if p.collectionCenter.Some? && p.collectionCenter.value !in centers then
      Some(UnknownReference("collection_center", p.collectionCenter.value))
    else if p.processingFacility.Some? && p.processingFacility.value !in facilities then
      Some(UnknownReference("processing_facility", p.processingFacility.value))
    else if p.packagingCenter.Some? && p.packagingCenter.value !in packaging then
      Some(UnknownReference("packaging_center", p.packagingCenter.value))
    else if p.contributingFarmers.Some? && UnknownFarmer(farmers, p.contributingFarmers.value).Some? then
      Some(UnknownReference("contributing_farmers", UnknownFarmer(farmers, p.contributingFarmers.value).value))
    else None
  }

  /** A batch number the payload supplies that another row already holds (the unique column's validator). */
  predicate SuppliedNumberTaken(p: BatchPayload, batches: map<Pk, Batch>, except: Option<Pk>)
  {
    p.batchNumber.Some? && p.batchNumber.value != [] && NumberTaken(batches, p.batchNumber.value, except)
  }

  /** A patch whose references resolve keeps a row's references resolvable. */
  lemma PatchKeepsReferences(b: Batch, p: BatchPayload, farmers: set<Pk>, centers: set<Pk>, facilities: set<Pk>, packaging: set<Pk>)
    requires RefsIn(b, farmers, centers, facilities, packaging)
    requires ReferencesResolve(p, farmers, centers, facilities, packaging)
    ensures RefsIn(FillBatchNumber(ApplyPatch(b, p)), farmers, centers, facilities, packaging)
  {
    var r := FillBatchNumber(ApplyPatch(b, p));
    if p.contributingFarmers.Some? {
      var given := p.contributingFarmers.value;
      forall f | f in r.contributingFarmers ensures f in farmers {
        var i :| 0 <= i < |given| && given[i] == f;
      }
    }
  }

  /** A create payload whose references resolve makes a row whose references resolve. */
  lemma NewBatchReferences(p: BatchPayload, farmers: set<Pk>, centers: set<Pk>, facilities: set<Pk>, packaging: set<Pk>)
    requires Complete(p) && ReferencesResolve(p, farmers, centers, facilities, packaging)
    ensures RefsIn(FillBatchNumber(NewBatch(p)), farmers, centers, facilities, packaging)
  {
    var r := FillBatchNumber(NewBatch(p));
    var given := p.contributingFarmers.value;
    forall f | f in r.contributingFarmers ensures f in farmers {
      var i :| 0 <= i < |given| && given[i] == f;
    }
  }

  /**
   * The field-level checks that run before `validate`: the references, then
   * the uniqueness of a supplied batch number (`except` is the row being updated).
   */
  function FieldError(p: BatchPayload, farmers: set<Pk>, centers: set<Pk>, facilities: set<Pk>, packaging: set<Pk>,
                      batches: map<Pk, Batch>, except: Option<Pk>): (r: Option<Error>)
    ensures r.None? <==> ReferencesResolve(p, farmers, centers, facilities, packaging) && !SuppliedNumberTaken(p, batches, except)
    ensures !ReferencesResolve(p, farmers, centers, facilities, packaging) ==> r.Some? && r.value.UnknownReference?
    ensures ReferencesResolve(p, farmers, centers, facilities, packaging) && SuppliedNumberTaken(p, batches, except) ==>
              r == Some(Duplicate("batch_number"))
  {
    var unknown := ReferenceError(p, farmers, centers, facilities, packaging);
    if unknown.Some? then unknown
    else if SuppliedNumberTaken(p, batches, except) then Some(Duplicate("batch_number"))
    else None
  }

  // ---------------------------------------------------------------------------
  // The tables
  // ---------------------------------------------------------------------------

  class Registry {
    var farmers: map<Pk, Farmer>
    var collectionCenters: map<Pk, CollectionCenter>
    var processingFacilities: map<Pk, ProcessingFacility>
    var packagingCenters: map<Pk, PackagingCenter>
    var batches: map<Pk, Batch>

    /** The next value of each table's primary-key sequence; a key is never handed out twice. */
    var nextFarmerPk: Pk
    var nextCollectionCenterPk: Pk
    var nextProcessingFacilityPk: Pk
    var nextPackagingCenterPk: Pk
    var nextBatchPk: Pk

    /** The foreign keys and the farmer links of `b` name existing rows. */
    ghost predicate ReferencesExist(b: Batch)
      reads this
    {
      RefsIn(b, farmers.Keys, collectionCenters.Keys, processingFacilities.Keys, packagingCenters.Keys)
    }

    /** What the database guarantees: fresh keys, unique columns, resolvable foreign keys, saved numbers. */
    ghost predicate Valid()
      reads this
    {
      && FarmerTableValid(farmers, nextFarmerPk)
      && CollectionCenterTableValid(collectionCenters, nextCollectionCenterPk)
      && FacilityTableValid(processingFacilities, nextProcessingFacilityPk)
      && PackagingCenterTableValid(packagingCenters, nextPackagingCenterPk)
      && BatchTableValid(batches, nextBatchPk, farmers.Keys, collectionCenters.Keys, processingFacilities.Keys, packagingCenters.Keys)
    }

    /** The field-level checks against the current tables. */
    function FieldCheck(p: BatchPayload, except: Option<Pk>): Option<Error>
      reads this
    {
      FieldError(p, farmers.Keys, collectionCenters.Keys, processingFacilities.Keys, packagingCenters.Keys, batches, except)
    }

    /** What the compliance gate guarantees of every batch written through it. */
    ghost predicate AllCompliant()
      reads this
    {
      AllRowsCompliant(batches)
    }

    constructor ()
      ensures Valid() && AllCompliant()
      ensures farmers == map[] && collectionCenters == map[] && processingFacilities == map[]
      ensures packagingCenters == map[] && batches == map[]
    {
      farmers, collectionCenters, processingFacilities, packagingCenters, batches :=
        map[], map[], map[], map[], map[];
      nextFarmerPk, nextCollectionCenterPk, nextProcessingFacilityPk, nextPackagingCenterPk, nextBatchPk :=
        1, 1, 1, 1, 1;
    }

    // -------------------------------------------------------------------------
    // The four entity tables: create with ID assignment
    // -------------------------------------------------------------------------

    /**
     * `super().create` on the farmer table: the row is inserted under the next key of
     * the sequence unless another row already holds its ID (the unique column).
     */
    method InsertFarmer(row: Farmer) returns (r: Result<Pk, Error>)
      requires Valid()
      modifies this`farmers, this`nextFarmerPk
      ensures Valid()
      ensures r.Success? <==> forall k :: k in old(farmers) ==> old(farmers)[k].farmerId != row.farmerId
      ensures r.Success? ==> && r.value == old(nextFarmerPk) && r.value !in old(farmers)
                             && farmers == old(farmers)[r.value := row]
                             && nextFarmerPk == old(nextFarmerPk) + 1
      ensures r.Failure? ==> r.error == Duplicate("farmer_id") && unchanged(this)
    {
      if exists k :: k in farmers && farmers[k].farmerId == row.farmerId {
        return Failure(Duplicate("farmer_id"));
      }
      r := Success(nextFarmerPk);
      farmers := farmers[nextFarmerPk := row];
      nextFarmerPk := nextFarmerPk + 1;
    }

    /** `FarmerSerializer.create`: the ID is the one supplied or `F` + the next running number. */
    method CreateFarmer(data: Farmer, farmerId: Option<string>) returns (r: Result<Pk, Error>)
      requires Valid()
      modifies this`farmers, this`nextFarmerPk
      ensures Valid()
      ensures var id := AssignedId(farmerId, FarmerPrefix, old(farmers).Keys);
              && (r.Success? <==> forall k :: k in old(farmers) ==> old(farmers)[k].farmerId != id)
              && (r.Success? ==> r.value == old(nextFarmerPk) && r.value !in old(farmers)
                                 && farmers == old(farmers)[r.value := data.(farmerId := id)]
                                 && nextFarmerPk == old(nextFarmerPk) + 1)
      ensures r.Failure? ==> r.error == Duplicate("farmer_id") && unchanged(this)
    {
      var id := AssignedId(farmerId, FarmerPrefix, farmers.Keys);
      r := InsertFarmer(data.(farmerId := id));
    }

    /**
     * `super().create` on the collection-centre table: the row is inserted under the next key of
     * the sequence unless another row already holds its ID (the unique column).
     */
    method InsertCollectionCenter(row: CollectionCenter) returns (r: Result<Pk, Error>)
      requires Valid()
      modifies this`collectionCenters, this`nextCollectionCenterPk
      ensures Valid()
      ensures r.Success? <==> forall k :: k in old(collectionCenters) ==> old(collectionCenters)[k].centerId != row.centerId
      ensures r.Success? ==> && r.value == old(nextCollectionCenterPk) && r.value !in old(collectionCenters)
                             && collectionCenters == old(collectionCenters)[r.value := row]
                             && nextCollectionCenterPk == old(nextCollectionCenterPk) + 1
      ensures r.Failure? ==> r.error == Duplicate("center_id") && unchanged(this)
    {
      if exists k :: k in collectionCenters && collectionCenters[k].centerId == row.centerId {
        return Failure(Duplicate("center_id"));
      }
      r := Success(nextCollectionCenterPk);
      collectionCenters := collectionCenters[nextCollectionCenterPk := row];
      nextCollectionCenterPk := nextCollectionCenterPk + 1;
    }

    /** `CollectionCenterSerializer.create`: the ID is the one supplied or `CC` + the next running number. */
    method CreateCollectionCenter(data: CollectionCenter, centerId: Option<string>) returns (r: Result<Pk, Error>)
      requires Valid()
      modifies this`collectionCenters, this`nextCollectionCenterPk
      ensures Valid()
      ensures var id := AssignedId(centerId, CollectionCenterPrefix, old(collectionCenters).Keys);
              && (r.Success? <==> forall k :: k in old(collectionCenters) ==> old(collectionCenters)[k].centerId != id)
              && (r.Success? ==> r.value == old(nextCollectionCenterPk) && r.value !in old(collectionCenters)
                                 && collectionCenters == old(collectionCenters)[r.value := data.(centerId := id)]
                                 && nextCollectionCenterPk == old(nextCollectionCenterPk) + 1)
      ensures r.Failure? ==> r.error == Duplicate("center_id") && unchanged(this)
    {
      var id := AssignedId(centerId, CollectionCenterPrefix, collectionCenters.Keys);
      r := InsertCollectionCenter(data.(centerId := id));
    }

    /**
     * `super().create` on the processing-facility table: the row is inserted under the next key of
     * the sequence unless another row already holds its ID (the unique column).
     */
    method InsertProcessingFacility(row: ProcessingFacility) returns (r: Result<Pk, Error>)
      requires Valid()
      modifies this`processingFacilities, this`nextProcessingFacilityPk
      ensures Valid()
      ensures r.Success? <==> forall k :: k in old(processingFacilities) ==> old(processingFacilities)[k].facilityId != row.facilityId
      ensures r.Success? ==> && r.value == old(nextProcessingFacilityPk) && r.value !in old(processingFacilities)
                             && processingFacilities == old(processingFacilities)[r.value := row]
                             && nextProcessingFacilityPk == old(nextProcessingFacilityPk) + 1
      ensures r.Failure? ==> r.error == Duplicate("facility_id") && unchanged(this)
    {
      if exists k :: k in processingFacilities && processingFacilities[k].facilityId == row.facilityId {
        return Failure(Duplicate("facility_id"));
      }
      r := Success(nextProcessingFacilityPk);
      processingFacilities := processingFacilities[nextProcessingFacilityPk := row];
      nextProcessingFacilityPk := nextProcessingFacilityPk + 1;
    }

    /** `ProcessingFacilitySerializer.create`: the ID is the one supplied or `PF` + the next running number. */
    method CreateProcessingFacility(data: ProcessingFacility, facilityId: Option<string>) returns (r: Result<Pk, Error>)
      requires Valid()
      modifies this`processingFacilities, this`nextProcessingFacilityPk
      ensures Valid()
      ensures var id := AssignedId(facilityId, ProcessingFacilityPrefix, old(processingFacilities).Keys);
              && (r.Success? <==> forall k :: k in old(processingFacilities) ==> old(processingFacilities)[k].facilityId != id)
              && (r.Success? ==> r.value == old(nextProcessingFacilityPk) && r.value !in old(processingFacilities)
                                 && processingFacilities == old(processingFacilities)[r.value := data.(facilityId := id)]
                                 && nextProcessingFacilityPk == old(nextProcessingFacilityPk) + 1)
      ensures r.Failure? ==> r.error == Duplicate("facility_id") && unchanged(this)
    {
      var id := AssignedId(facilityId, ProcessingFacilityPrefix, processingFacilities.Keys);
      r := InsertProcessingFacility(data.(facilityId := id));
    }

    /**
     * `super().create` on the packaging-centre table: the row is inserted under the next key of
     * the sequence unless another row already holds its ID (the unique column).
     */
    method InsertPackagingCenter(row: PackagingCenter) returns (r: Result<Pk, Error>)
      requires Valid()
      modifies this`packagingCenters, this`nextPackagingCenterPk
      ensures Valid()
      ensures r.Success? <==> forall k :: k in old(packagingCenters) ==> old(packagingCenters)[k].centerId != row.centerId
      ensures r.Success? ==> && r.value == old(nextPackagingCenterPk) && r.value !in old(packagingCenters)
                             && packagingCenters == old(packagingCenters)[r.value := row]
                             && nextPackagingCenterPk == old(nextPackagingCenterPk) + 1
      ensures r.Failure? ==> r.error == Duplicate("center_id") && unchanged(this)
    {
      if exists k :: k in packagingCenters && packagingCenters[k].centerId == row.centerId {
        return Failure(Duplicate("center_id"));
      }
      r := Success(nextPackagingCenterPk);
      packagingCenters := packagingCenters[nextPackagingCenterPk := row];
      nextPackagingCenterPk := nextPackagingCenterPk + 1;
    }

    /** `PackagingCenterSerializer.create`: the ID is the one supplied or `PC` + the next running number. */
    method CreatePackagingCenter(data: PackagingCenter, centerId: Option<string>) returns (r: Result<Pk, Error>)
      requires Valid()
      modifies this`packagingCenters, this`nextPackagingCenterPk
      ensures Valid()
      ensures var id := AssignedId(centerId, PackagingCenterPrefix, old(packagingCenters).Keys);
              && (r.Success? <==> forall k :: k in old(packagingCenters) ==> old(packagingCenters)[k].centerId != id)
              && (r.Success? ==> r.value == old(nextPackagingCenterPk) && r.value !in old(packagingCenters)
                                 && packagingCenters == old(packagingCenters)[r.value := data.(centerId := id)]
                                 && nextPackagingCenterPk == old(nextPackagingCenterPk) + 1)
      ensures r.Failure? ==> r.error == Duplicate("center_id") && unchanged(this)
    {
      var id := AssignedId(centerId, PackagingCenterPrefix, packagingCenters.Keys);
      r := InsertPackagingCenter(data.(centerId := id));
    }

    // -------------------------------------------------------------------------
    // Batches
    // -------------------------------------------------------------------------

    /**
     * `super().create` on the batch table: a saved row is inserted under the
     * next key of the sequence unless another row holds its number.
     */
    method InsertBatch(row: Batch) returns (r: Result<Pk, Error>)
      requires Valid() && row.batchNumber != [] && ReferencesExist(row)
      modifies this`batches, this`nextBatchPk
      ensures Valid()
      ensures old(AllCompliant()) && Compliant(row) ==> AllCompliant()
      ensures r.Success? <==> !NumberTaken(old(batches), row.batchNumber, None)
      ensures r.Success? ==> && r.value == old(nextBatchPk) && r.value !in old(batches)
                             && batches == old(batches)[r.value := row]
                             && nextBatchPk == old(nextBatchPk) + 1
      ensures r.Failure? ==> r.error == Duplicate("batch_number") && unchanged(this)
    {
      if NumberTaken(batches, row.batchNumber, None) {
        return Failure(Duplicate("batch_number"));
      }
      if AllCompliant() && Compliant(row) {
        WriteKeepsCompliant(batches, nextBatchPk, row);
      }
      WriteKeepsBatchTable(batches, nextBatchPk, nextBatchPk + 1, farmers.Keys, collectionCenters.Keys,
                           processingFacilities.Keys, packagingCenters.Keys, nextBatchPk, row);
      r := Success(nextBatchPk);
      batches := batches[nextBatchPk := row];
      nextBatchPk := nextBatchPk + 1;
    }

    /** `instance.save()` of a stored batch: the row is overwritten unless another row holds its number. */
    method ReplaceBatch(pk: Pk, row: Batch) returns (r: Result<Pk, Error>)
      requires Valid() && pk in batches && row.batchNumber != [] && ReferencesExist(row)
      modifies this`batches
      ensures Valid()
      ensures old(AllCompliant()) && Compliant(row) ==> AllCompliant()
      ensures r.Success? <==> !NumberTaken(old(batches), row.batchNumber, Some(pk))
      ensures r.Success? ==> r.value == pk && batches == old(batches)[pk := row]
      ensures r.Failure? ==> r.error == Duplicate("batch_number") && unchanged(this)
    {
      if NumberTaken(batches, row.batchNumber, Some(pk)) {
        return Failure(Duplicate("batch_number"));
      }
      if AllCompliant() && Compliant(row) {
        WriteKeepsCompliant(batches, pk, row);
      }
      WriteKeepsBatchTable(batches, nextBatchPk, nextBatchPk, farmers.Keys, collectionCenters.Keys,
                           processingFacilities.Keys, packagingCenters.Keys, pk, row);
      r := Success(pk);
      batches := batches[pk := row];
    }

    /**
     * Creating a batch: the required fields, then the field-level checks (the
     * foreign keys, the farmer relation, a supplied number already in use),
     * then `validate`, then `save`, which fills an empty number, and the
     * unique batch-number column for a number `save` composed.
     */
    method CreateBatch(p: BatchPayload) returns (r: Result<Pk, Error>)
      requires Valid()
      modifies this`batches, this`nextBatchPk
      ensures Valid()
      ensures old(AllCompliant()) ==> AllCompliant()
      ensures !Complete(p) ==> r == Failure(MissingField(MissingBatchField(p).value))
      ensures Complete(p) && old(FieldCheck(p, None)).Some? ==> r == Failure(old(FieldCheck(p, None)).value)
      ensures Complete(p) && old(FieldCheck(p, None)).None? && Validate(p).Failure? ==>
                r == Failure(Invalid(Validate(p).error))
      ensures Complete(p) && old(FieldCheck(p, None)).None? && Validate(p).Success?
              && NumberTaken(old(batches), FillBatchNumber(NewBatch(p)).batchNumber, None) ==>
                r == Failure(Duplicate("batch_number"))
      ensures r.Success? <==>
                && Complete(p)
                && old(FieldCheck(p, None)).None?
                && Validate(p).Success?
                && !NumberTaken(old(batches), FillBatchNumber(NewBatch(p)).batchNumber, None)
      ensures r.Success? ==> && r.value == old(nextBatchPk) && r.value !in old(batches)
                             && batches == old(batches)[r.value := FillBatchNumber(NewBatch(p))]
                             && nextBatchPk == old(nextBatchPk) + 1
                             && Compliant(batches[r.value])
      ensures r.Failure? ==> unchanged(this)
    {
      var missing := MissingBatchField(p);
      if missing.Some? {
        return Failure(MissingField(missing.value));
      }
      var fieldError := FieldCheck(p, None);
      if fieldError.Some? {
        return Failure(fieldError.value);
      }
      var checked := Validate(p);
      if checked.Failure? {
        return Failure(Invalid(checked.error));
      }
      NewBatchReferences(p, farmers.Keys, collectionCenters.Keys, processingFacilities.Keys, packagingCenters.Keys);
      r := InsertBatch(FillBatchNumber(NewBatch(p)));
    }

    /**
     * An update of the batch found by its number. A full update (`partial`
     * false, HTTP PUT) must carry every required field, as a create does; a
     * partial one (PATCH) any subset. Then come the field-level checks on what
     * the payload carries, then `validate` on the payload alone (so a payload
     * without the flags is turned away whatever the stored row says), then
     * `save` and the unique batch-number column.
     */
    method UpdateBatch(number: string, p: BatchPayload, partial: bool) returns (r: Result<Pk, Error>)
      requires Valid()
      modifies this`batches
      ensures Valid()
      ensures old(AllCompliant()) ==> AllCompliant()
      ensures FindByNumber(old(batches), number).None? ==> r == Failure(NotFound)
      ensures FindByNumber(old(batches), number).Some? && !partial && !Complete(p) ==>
                r == Failure(MissingField(MissingBatchField(p).value))
      ensures var found := FindByNumber(old(batches), number);
              found.Some? && (partial || Complete(p)) && old(FieldCheck(p, found)).Some? ==>
                r == Failure(old(FieldCheck(p, found)).value)
      ensures var found := FindByNumber(old(batches), number);
              found.Some? && (partial || Complete(p)) && old(FieldCheck(p, found)).None? && Validate(p).Failure? ==>
                r == Failure(Invalid(Validate(p).error))
      ensures r.Success? <==>
                var found := FindByNumber(old(batches), number);
                && found.Some?
                && (partial || Complete(p))
                && old(FieldCheck(p, found)).None?
                && Validate(p).Success?
                && !NumberTaken(old(batches), FillBatchNumber(ApplyPatch(old(batches)[found.value], p)).batchNumber, found)
      ensures r.Success? ==> && r.value in old(batches) && old(batches)[r.value].batchNumber == number
                             && batches == old(batches)[r.value := FillBatchNumber(ApplyPatch(old(batches)[r.value], p))]
                             && Compliant(batches[r.value])
      ensures r.Failure? ==> unchanged(this)
    {
      var found := FindByNumber(batches, number);
      if found.None? {
        return Failure(NotFound);
      }
      if !partial {
        var missing := MissingBatchField(p);
        if missing.Some? {
          return Failure(MissingField(missing.value));
        }
      }
      var fieldError := FieldCheck(p, found);
      if fieldError.Some? {
        return Failure(fieldError.value);
      }
      var checked := Validate(p);
      if checked.Failure? {
        return Failure(Invalid(checked.error));
      }
      var pk := found.value;
      assert ReferencesExist(batches[pk]);
      PatchKeepsReferences(batches[pk], p, farmers.Keys, collectionCenters.Keys, processingFacilities.Keys, packagingCenters.Keys);
      r := ReplaceBatch(pk, FillBatchNumber(ApplyPatch(batches[pk], p)));
    }

    /** Deleting the batch found by its number; its farmer links go with it, nothing else does. */
    method DeleteBatch(number: string) returns (found: bool)
      requires Valid()
      modifies this`batches
      ensures Valid()
      ensures old(AllCompliant()) ==> AllCompliant()
      ensures found <==> exists k :: k in old(batches) && old(batches)[k].batchNumber == number
      ensures batches == WithoutNumber(old(batches), number)
    {
      RemoveFoundRow(batches, number);
      RemoveKeepsBatchTable(batches, nextBatchPk, farmers.Keys, collectionCenters.Keys, processingFacilities.Keys, packagingCenters.Keys, number);
      var pk := FindByNumber(batches, number);
      found := pk.Some?;
      if found {
        batches := batches - {pk.value};
      }
    }

    // -------------------------------------------------------------------------
    // Deleting referenced rows
    // -------------------------------------------------------------------------

    /** Deleting a farmer: it leaves every batch's farmer set; no batch is deleted. */
    method DeleteFarmer(pk: Pk) returns (found: bool)
      requires Valid()
      modifies this`farmers, this`batches
      ensures Valid()
      ensures old(AllCompliant()) ==> AllCompliant()
      ensures found == (pk in old(farmers))
      ensures farmers == old(farmers) - {pk}
      ensures batches == if found then UnlinkFarmer(old(batches), pk) else old(batches)
    {
      found := pk in farmers;
      if found {
        UnlinkKeepsBatchTable(batches, nextBatchPk, farmers.Keys, collectionCenters.Keys, processingFacilities.Keys, packagingCenters.Keys, pk);
        farmers := farmers - {pk};
        batches := UnlinkFarmer(batches, pk);
      }
    }

    /** Deleting a collection centre deletes exactly the batches that reference it. */
    method DeleteCollectionCenter(pk: Pk) returns (found: bool)
      requires Valid()
      modifies this`collectionCenters, this`batches
      ensures Valid()
      ensures old(AllCompliant()) ==> AllCompliant()
      ensures found == (pk in old(collectionCenters))
      ensures collectionCenters == old(collectionCenters) - {pk}
      ensures batches == CascadeDelete(old(batches), CollectionCenterColumn, pk)
    {
      found := pk in collectionCenters;
      CascadeKeepsBatchTable(batches, nextBatchPk, farmers.Keys, collectionCenters.Keys, processingFacilities.Keys, packagingCenters.Keys, CollectionCenterColumn, pk);
      collectionCenters := collectionCenters - {pk};
      batches := CascadeDelete(batches, CollectionCenterColumn, pk);
    }

    /** Deleting a processing facility deletes exactly the batches that reference it. */
    method DeleteProcessingFacility(pk: Pk) returns (found: bool)
      requires Valid()
      modifies this`processingFacilities, this`batches
      ensures Valid()
      ensures old(AllCompliant()) ==> AllCompliant()
      ensures found == (pk in old(processingFacilities))
      ensures processingFacilities == old(processingFacilities) - {pk}
      ensures batches == CascadeDelete(old(batches), ProcessingFacilityColumn, pk)
    {
      found := pk in processingFacilities;
      CascadeKeepsBatchTable(batches, nextBatchPk, farmers.Keys, collectionCenters.Keys, processingFacilities.Keys, packagingCenters.Keys, ProcessingFacilityColumn, pk);
      processingFacilities := processingFacilities - {pk};
      batches := CascadeDelete(batches, ProcessingFacilityColumn, pk);
    }

    /** Deleting a packaging centre deletes exactly the batches that reference it. */
    method DeletePackagingCenter(pk: Pk) returns (found: bool)
      requires Valid()
      modifies this`packagingCenters, this`batches
      ensures Valid()
      ensures old(AllCompliant()) ==> AllCompliant()
      ensures found == (pk in old(packagingCenters))
      ensures packagingCenters == old(packagingCenters) - {pk}
      ensures batches == CascadeDelete(old(batches), PackagingCenterColumn, pk)
    {
      found := pk in packagingCenters;
      CascadeKeepsBatchTable(batches, nextBatchPk, farmers.Keys, collectionCenters.Keys, processingFacilities.Keys, packagingCenters.Keys, PackagingCenterColumn, pk);
      packagingCenters := packagingCenters - {pk};
      batches := CascadeDelete(batches, PackagingCenterColumn, pk);
    }
  }
}
