/**
 * The layer builder form (src/app/components/LayerBuilder.tsx): five text
 * fields and a visualization type, the `canCreate` rule that enables the
 * create button, and `handleCreate`, which emits a request and clears the form.
 */
module LayerBuilder {
  import opened Seqs
  import opened Types

  /** `canCreate`: whether the create button is enabled. */
  predicate CanCreate(name: string, vtype: VisualizationType, input1: string, input2: string,
                      referenceMean: string, referenceStdDev: string)
  {
    && name != "" && input1 != ""
    && match vtype
       case Raw => true
       case Delta => input2 != ""
       case ZScore => referenceMean != "" && referenceStdDev != ""
       case Bivariate => input2 != ""
  }

  /** `handleCreate`'s own guard, weaker than `CanCreate`. */
  predicate CreateGuard(name: string, input1: string)
  {
    name != "" && input1 != ""
  }

  /**
   * The inputs a layer of each type needs: `raw` one dataset, `delta` and
   * `bivariate` two, `zscore` one plus a mean and a standard-deviation dataset.
   */
  predicate HasRequiredInputs(req: LayerRequest)
  {
    && req.name != ""
    && req.input1.Some? && req.input1.value != ""
    && match req.vtype
       case Raw => true
       case Delta => req.input2.Some? && req.input2.value != ""
       case ZScore => && req.referenceMean.Some? && req.referenceMean.value != ""
                      && req.referenceStdDev.Some? && req.referenceStdDev.value != ""
       case Bivariate => req.input2.Some? && req.input2.value != ""
  }

  /**
   * The request `handleCreate` passes on: the second input only for `delta`
   * and `bivariate`, the reference datasets only for `zscore`.
   */
  function BuildRequest(name: string, vtype: VisualizationType, input1: string, input2: string,
                        referenceMean: string, referenceStdDev: string): (req: LayerRequest)
    ensures req.name == name && req.vtype == vtype && req.input1 == Some(input1)
    ensures req.input2 == if vtype == Delta || vtype == Bivariate then Some(input2) else None
    ensures req.referenceMean == if vtype == ZScore then Some(referenceMean) else None
    ensures req.referenceStdDev == if vtype == ZScore then Some(referenceStdDev) else None
    ensures HasRequiredInputs(req) <==> CanCreate(name, vtype, input1, input2, referenceMean, referenceStdDev)
  {
    LayerRequest(name, vtype, Some(input1),
      if vtype == Delta || vtype == Bivariate then Some(input2) else None,
      if vtype == ZScore then Some(referenceMean) else None,
      if vtype == ZScore then Some(referenceStdDev) else None)
  }

  /** Whatever the button allows also passes the handler's guard. */
  lemma CanCreateImpliesGuard(name: string, vtype: VisualizationType, input1: string, input2: string,
                              referenceMean: string, referenceStdDev: string)
    requires CanCreate(name, vtype, input1, input2, referenceMean, referenceStdDev)
    ensures CreateGuard(name, input1)
  {
  }

  /**
   * The handler alone would emit a `delta` request with an empty second
   * input; only the disabled button keeps that from happening.
   */
  lemma GuardAdmitsIncompleteDelta()
    ensures CreateGuard("anomaly", "a") && !CanCreate("anomaly", Delta, "a", "", "", "")
    ensures !HasRequiredInputs(BuildRequest("anomaly", Delta, "a", "", "", ""))
  {
  }

  class Form {
    var layerName: string
    var layerType: VisualizationType
    var input1: string
    var input2: string
    var referenceMean: string
    var referenceStdDev: string

    constructor ()
      ensures layerName == "" && layerType == Raw && input1 == "" && input2 == ""
      ensures referenceMean == "" && referenceStdDev == ""
    {
      layerName, layerType := "", Raw;
      input1, input2, referenceMean, referenceStdDev := "", "", "", "";
    }

    predicate CanCreateNow()
      reads this
    {
      CanCreate(layerName, layerType, input1, input2, referenceMean, referenceStdDev)
    }

    /**
     * `handleCreate`: nothing when the name or the first input is empty;
     * otherwise emits the request and clears the five text fields, keeping the type.
     */
    method Create() returns (emitted: Option<LayerRequest>)
      modifies this
      ensures emitted.None? <==> !CreateGuard(old(layerName), old(input1))
      ensures emitted.Some? ==>
        && emitted.value == BuildRequest(old(layerName), old(layerType), old(input1), old(input2),
                                         old(referenceMean), old(referenceStdDev))
        && layerName == "" && input1 == "" && input2 == ""
        && referenceMean == "" && referenceStdDev == ""
        && layerType == old(layerType)
      ensures emitted.None? ==>
        && layerName == old(layerName) && layerType == old(layerType)
        && input1 == old(input1) && input2 == old(input2)
        && referenceMean == old(referenceMean) && referenceStdDev == old(referenceStdDev)
    {
      if layerName == "" || input1 == "" {
        return None;
      }
      emitted := Some(BuildRequest(layerName, layerType, input1, input2, referenceMean, referenceStdDev));
      layerName := "";
      input1 := "";
      input2 := "";
      referenceMean := "";
      referenceStdDev := "";
    }
  }

  /** A create the button allows emits a request carrying every input its type needs. */
  method CreateWhenEnabled(form: Form) returns (emitted: Option<LayerRequest>)
    requires form.CanCreateNow()
    modifies form
    ensures emitted.Some? && HasRequiredInputs(emitted.value)
  {
    emitted := form.Create();
  }
}
