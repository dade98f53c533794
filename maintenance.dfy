/**
 * The maintenance window: a context manager that, on entry, captures the
 * current value of a ConfigMap entry and the class name of an Ingress, then
 * writes the maintenance values; on exit it writes the captured values
 * back. The two Kubernetes objects are two cells holding an optional
 * string (`None` means the entry or attribute is absent); every Kubernetes
 * call may raise, as told by an oracle indexed by the call's number.
 * Reading an absent ConfigMap entry raises, so a window is only ever
 * entered over an existing entry; an absent Ingress class is read as `None`
 * and written back as `None`.
 */
module Maintenance {
  import opened Wrappers

  /** The values to write while in maintenance (`MaintenanceDetails`). */
  datatype MaintenanceDetails = MaintenanceDetails(ingressClassName: string, configMapValue: string)

  /** The two Kubernetes objects the window touches. */
  datatype Cells = Cells(configValue: Option<string>, ingressClass: Option<string>)

  /** What the window captured on entry: `_original_config_map_value`, `_original_ingress_class_name`. */
  datatype Captured = Captured(configValue: Option<string>, ingressClass: Option<string>)

  /**
   * An exception raised by a Kubernetes call: the API itself raised, or the
   * ConfigMap has no data or no such entry (a `RuntimeError` in the current
   * tree, a `KeyError` in the legacy tree).
   */
  datatype KubeError = ApiError(call: nat) | MissingEntry(call: nat)

  /** How many of the `k` calls numbered `n`, `n + 1`, ... succeed before the first one that raises. */
  function Completed(fails: nat -> bool, n: nat, k: nat): (c: nat)
    ensures c <= k
    ensures forall j :: n <= j < n + c ==> !fails(j)
    ensures c < k ==> fails(n + c)
    decreases k
  {
    if k == 0 || fails(n) then 0 else 1 + Completed(fails, n + 1, k - 1)
  }

  /**
   * The effect of `_set_up_maintenance_mode` when its first `c` calls
   * succeed: get the config value, get the ingress class, set the config
   * value, set the ingress class.
   */
  function EnterEffect(cells: Cells, captured: Captured, details: MaintenanceDetails, c: nat): (Cells, Captured)
  {
    (Cells(if c >= 3 then Some(details.configMapValue) else cells.configValue,
           if c >= 4 then Some(details.ingressClassName) else cells.ingressClass),
     Captured(if c >= 1 then cells.configValue else captured.configValue,
              if c >= 2 then cells.ingressClass else captured.ingressClass))
  }

  /** The effect of `_tear_down_maintenance_mode` when its first `c` calls succeed: set the config value, then the ingress class. */
  function ExitEffect(cells: Cells, captured: Captured, c: nat): Cells
  {
    Cells(if c >= 1 then captured.configValue else cells.configValue,
          if c >= 2 then captured.ingressClass else cells.ingressClass)
  }

  /**
   * A window entered over an existing ConfigMap entry and left without
   * failure gives back the objects exactly as they were, an absent Ingress
   * class included.
   */
  lemma WindowRestores(cells: Cells, captured: Captured, details: MaintenanceDetails)
    requires cells.configValue.Some?
    ensures var (inside, capturedNow) := EnterEffect(cells, captured, details, 4);
      && inside == Cells(Some(details.configMapValue), Some(details.ingressClassName))
      && ExitEffect(inside, capturedNow, 2) == cells
  {
  }

  /** An entry that fails after its first write leaves the maintenance config value in place, and nothing restores it. */
  lemma FailedEntryNotRolledBack(cells: Cells, captured: Captured, details: MaintenanceDetails)
    ensures var (after, _) := EnterEffect(cells, captured, details, 3);
      && after.configValue == Some(details.configMapValue)
      && after.ingressClass == cells.ingressClass
  {
  }

  /**
   * Each entry captures afresh: entering twice before leaving captures the
   * maintenance values themselves, so leaving does not give the original
   * objects back.
   */
  lemma ReentryRecaptures(cells: Cells, captured: Captured, details: MaintenanceDetails)
    ensures var (inside, c1) := EnterEffect(cells, captured, details, 4);
      var (inside2, c2) := EnterEffect(inside, c1, details, 4);
      && c2 == Captured(Some(details.configMapValue), Some(details.ingressClassName))
      && ExitEffect(inside2, c2, 2) == Cells(Some(details.configMapValue), Some(details.ingressClassName))
  {
  }

  /** The Kubernetes objects, behind the calls of `KubernetesApi` the window uses. */
  class KubeCells {
    var cells: Cells
    /** The number of calls made so far. */
    var calls: nat
    /** `fails(n)`: the call numbered `n` raises. */
    const fails: nat -> bool

    constructor (cells: Cells, fails: nat -> bool)
      ensures this.cells == cells && this.fails == fails && calls == 0
    {
      this.cells := cells;
      this.fails := fails;
      calls := 0;
    }

    /** `get_config_map_value`: an absent entry raises. */
    method GetConfigMapValue() returns (r: Result<string, KubeError>)
      modifies this`calls
      ensures calls == old(calls) + 1
      ensures r == if fails(old(calls)) then Err(ApiError(old(calls)))
                   else if cells.configValue.None? then Err(MissingEntry(old(calls)))
                   else Ok(cells.configValue.value)
    {
      r := if fails(calls) then Err(ApiError(calls))
           else if cells.configValue.None? then Err(MissingEntry(calls))
           else Ok(cells.configValue.value);
      calls := calls + 1;
    }

    /** `get_ingress_class_name` */
    method GetIngressClassName() returns (r: Result<Option<string>, KubeError>)
      modifies this`calls
      ensures calls == old(calls) + 1
      ensures r == if fails(old(calls)) then Err(ApiError(old(calls))) else Ok(cells.ingressClass)
    {
      r := if fails(calls) then Err(ApiError(calls)) else Ok(cells.ingressClass);
      calls := calls + 1;
    }

    /** `set_config_map_value`: `None` removes the entry. */
    method SetConfigMapValue(value: Option<string>) returns (r: Result<(), KubeError>)
      modifies this`calls, this`cells
      ensures calls == old(calls) + 1
      ensures r == if fails(old(calls)) then Err(ApiError(old(calls))) else Ok(())
      ensures cells == if fails(old(calls)) then old(cells) else old(cells).(configValue := value)
    {
      if fails(calls) {
        r := Err(ApiError(calls));
      } else {
        cells := cells.(configValue := value);
        r := Ok(());
      }
      calls := calls + 1;
    }

    /** `set_ingress_class_name`: `None` removes the attribute. */
    method SetIngressClassName(value: Option<string>) returns (r: Result<(), KubeError>)
      modifies this`calls, this`cells
      ensures calls == old(calls) + 1
      ensures r == if fails(old(calls)) then Err(ApiError(old(calls))) else Ok(())
      ensures cells == if fails(old(calls)) then old(cells) else old(cells).(ingressClass := value)
    {
      if fails(calls) {
        r := Err(ApiError(calls));
      } else {
        cells := cells.(ingressClass := value);
        r := Ok(());
      }
      calls := calls + 1;
    }
  }

  /**
   * `ClusterMaintenance` of the current tree and of the legacy tree; they
   * differ only in the status set on entry ("MaintenanceModeOn" and
   * "MaintenanceModeON"). The five-second pause after entry is left out.
   */
  class ClusterMaintenance {
    const api: KubeCells
    const details: MaintenanceDetails
    /** The status written on entry. */
    const statusOn: string
    var captured: Captured
    var status: string

    /** Nothing captured yet: both originals are `None`. */
    constructor (api: KubeCells, details: MaintenanceDetails, statusOn: string)
      ensures this.api == api && this.details == details && this.statusOn == statusOn
      ensures captured == Captured(None, None) && status == "ComponentInitialized"
    {
      this.api := api;
      this.details := details;
      this.statusOn := statusOn;
      captured := Captured(None, None);
      status := "ComponentInitialized";
    }

    /**
     * `__enter__`: the first call that raises stops the entry, leaving the
     * writes made before it in place. An absent ConfigMap entry makes the
     * first call raise, so nothing is written.
     */
    method Enter() returns (r: Result<(), KubeError>)
      modifies this`captured, this`status, api`calls, api`cells
      ensures status == statusOn
      ensures var c := if old(api.cells).configValue.None? then 0 else Completed(api.fails, old(api.calls), 4);
        && api.calls == old(api.calls) + (if c == 4 then 4 else c + 1)
        && (api.cells, captured) == EnterEffect(old(api.cells), old(captured), details, c)
        && (r.Ok? <==> c == 4)
        && (r.Err? ==> r.error == if c == 0 && !api.fails(old(api.calls)) then MissingEntry(old(api.calls))
                                  else ApiError(old(api.calls) + c))
      ensures old(api.cells).configValue.None? ==> r.Err? && api.cells == old(api.cells) && captured == old(captured)
    {
      status := statusOn;
      ghost var n0 := api.calls;
      var config := api.GetConfigMapValue();
      if config.Err? {
        assert api.fails(n0) ==> Completed(api.fails, n0, 4) == 0;
        return Err(config.error);
      }
      captured := captured.(configValue := Some(config.value));
      var ingress := api.GetIngressClassName();
      if ingress.Err? {
        assert Completed(api.fails, n0, 4) == 1;
        return Err(ingress.error);
      }
      captured := captured.(ingressClass := ingress.value);
      var written := api.SetConfigMapValue(Some(details.configMapValue));
      if written.Err? {
        assert Completed(api.fails, n0, 4) == 2;
        return Err(written.error);
      }
      written := api.SetIngressClassName(Some(details.ingressClassName));
      if written.Err? {
        assert Completed(api.fails, n0, 4) == 3;
        return Err(written.error);
      }
      assert Completed(api.fails, n0, 4) == 4;
      r := Ok(());
    }

    /** `__exit__`: writes the captured values back; it never swallows the body's exception. */
    method Exit() returns (r: Result<(), KubeError>)
      modifies this`status, api`calls, api`cells
      ensures status == "MaintenanceModeOFF"
      ensures var c := Completed(api.fails, old(api.calls), 2);
        && api.calls == old(api.calls) + (if c == 2 then 2 else c + 1)
        && api.cells == ExitEffect(old(api.cells), captured, c)
        && (r.Ok? <==> c == 2)
        && (r.Err? ==> r.error == ApiError(old(api.calls) + c))
    {
      status := "MaintenanceModeOFF";
      ghost var n0 := api.calls;
      var written := api.SetConfigMapValue(captured.configValue);
      if written.Err? {
        assert Completed(api.fails, n0, 2) == 0;
        return Err(written.error);
      }
      written := api.SetIngressClassName(captured.ingressClass);
      if written.Err? {
        assert Completed(api.fails, n0, 2) == 1;
        return Err(written.error);
      }
      assert Completed(api.fails, n0, 2) == 2;
      r := Ok(());
    }
  }

  /** The status the current tree sets on entry. */
  const StatusOn: string := "MaintenanceModeOn"
  /** The status the legacy tree sets on entry. */
  const LegacyStatusOn: string := "MaintenanceModeON"

  /** `NoopMaintenanceMode`: only logs; it holds no Kubernetes object at all. */
  class NoopMaintenanceMode {
    var status: string
    var notes: seq<string>

    constructor ()
      ensures status == "ComponentInitialized" && notes == []
    {
      status := "ComponentInitialized";
      notes := [];
    }

    method Enter()
      modifies this
      ensures status == StatusOn
      ensures notes == old(notes) + ["Set up maintenance mode does not do anything since Noop Maintenance Mode"]
    {
      status := StatusOn;
      notes := notes + ["Set up maintenance mode does not do anything since Noop Maintenance Mode"];
    }

    method Exit()
      modifies this
      ensures status == "MaintenanceModeOFF"
      ensures notes == old(notes) + ["Tear down maintenance mode does not do anything since Noop Maintenance Mode"]
    {
      status := "MaintenanceModeOFF";
      notes := notes + ["Tear down maintenance mode does not do anything since Noop Maintenance Mode"];
    }
  }

  /**
   * The outcome of `with window: body`: a failed entry skips the body and
   * the exit; otherwise the exit runs whatever the body did, an exception
   * raised by the exit replaces the body's, and the body's own exception
   * propagates since `__exit__` returns None.
   */
  function WindowOutcome<E>(entered: Result<(), E>, body: Result<(), E>, exited: Result<(), E>): (r: Result<(), E>)
    ensures entered.Err? ==> r == entered
    ensures entered.Ok? && exited.Ok? ==> r == body
    ensures r.Ok? <==> entered.Ok? && body.Ok? && exited.Ok?
  {
    if entered.Err? then entered
    else if exited.Err? then exited
    else body
  }
}
