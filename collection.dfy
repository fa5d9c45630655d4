/**
 * What the two device screens (lights and doors) share: the device rows,
 * the parent-side update of one row's `estado` by id, the fetch of the
 * collection, and the choice of what the content area shows.
 */
module Collection {
  import opened Wrappers
  import opened JsText

  /** A row of the `luces` or `puertas` table as the client receives it.
      `cantidad` exists for lights only and stands for any field besides
      `id`, `nombre` and `estado`. */
  datatype Device = Device(id: int, nombre: string, estado: bool, cantidad: Option<int>)

  // ---------------------------------------------------------------------
  // Parent list sync: `list.map(d => d.id === id ? { ...d, estado } : d)`

  function SetEstado(devices: seq<Device>, id: int, estado: bool): (r: seq<Device>)
    ensures |r| == |devices|
  {
    if devices == [] then []
    else [if devices[0].id == id then devices[0].(estado := estado) else devices[0]]
         + SetEstado(devices[1..], id, estado)
  }

  /** Position by position: a row with the id gets the new `estado` and keeps
      every other field; every other row is left as it was. */
  lemma {:induction false} SetEstadoAt(devices: seq<Device>, id: int, estado: bool, i: nat)
    requires i < |devices|
    ensures SetEstado(devices, id, estado)[i]
         == if devices[i].id == id then devices[i].(estado := estado) else devices[i]
  {
    if i > 0 {
      SetEstadoAt(devices[1..], id, estado, i - 1);
    }
  }

  /** Rows whose id differs are untouched; rows with the id differ at most in `estado`. */
  lemma {:induction false} SetEstadoFrame(devices: seq<Device>, id: int, estado: bool)
    ensures var r := SetEstado(devices, id, estado);
      |r| == |devices|
      && (forall i :: 0 <= i < |r| && devices[i].id != id ==> r[i] == devices[i])
      && (forall i :: 0 <= i < |r| && devices[i].id == id ==>
            r[i].estado == estado && r[i].id == id && r[i].nombre == devices[i].nombre
            && r[i].cantidad == devices[i].cantidad)
  {
    forall i | 0 <= i < |devices| {
      SetEstadoAt(devices, id, estado, i);
    }
  }

  /** When no row has the id the list comes back unchanged. */
  lemma {:induction false} SetEstadoAbsentId(devices: seq<Device>, id: int, estado: bool)
    requires forall i :: 0 <= i < |devices| ==> devices[i].id != id
    ensures SetEstado(devices, id, estado) == devices
  {
    SetEstadoFrame(devices, id, estado);
  }

  /** The ids, in order, are those of the input. */
  lemma {:induction false} SetEstadoKeepsIds(devices: seq<Device>, id: int, estado: bool)
    ensures forall i :: 0 <= i < |devices| ==> SetEstado(devices, id, estado)[i].id == devices[i].id
  {
    SetEstadoFrame(devices, id, estado);
  }

  /** The latest update of an id wins; in particular repeating one is idempotent. */
  lemma {:induction false} SetEstadoLastWins(devices: seq<Device>, id: int, a: bool, b: bool)
    ensures SetEstado(SetEstado(devices, id, a), id, b) == SetEstado(devices, id, b)
  {
    var m := SetEstado(devices, id, a);
    forall i | 0 <= i < |devices|
      ensures SetEstado(m, id, b)[i] == SetEstado(devices, id, b)[i]
    {
      SetEstadoAt(devices, id, a, i);
      SetEstadoAt(m, id, b, i);
      SetEstadoAt(devices, id, b, i);
    }
  }

  /** Updates of two different ids do not interfere. */
  lemma {:induction false} SetEstadoCommutes(devices: seq<Device>, id1: int, e1: bool, id2: int, e2: bool)
    requires id1 != id2
    ensures SetEstado(SetEstado(devices, id1, e1), id2, e2)
         == SetEstado(SetEstado(devices, id2, e2), id1, e1)
  {
    var m1 := SetEstado(devices, id1, e1);
    var m2 := SetEstado(devices, id2, e2);
    forall i | 0 <= i < |devices|
      ensures SetEstado(m1, id2, e2)[i] == SetEstado(m2, id1, e1)[i]
    {
      SetEstadoAt(devices, id1, e1, i);
      SetEstadoAt(devices, id2, e2, i);
      SetEstadoAt(m1, id2, e2, i);
      SetEstadoAt(m2, id1, e1, i);
    }
  }

  // ---------------------------------------------------------------------
  // Fetch of the collection

  /** How the GET of the collection ended: an ok response with its rows, a
      non-ok response with its status line, or an exception whose `message`
      may be missing. */
  datatype FetchOutcome =
    | Fetched(rows: seq<Device>)
    | HttpFailure(status: nat, statusText: string)
    | FetchThrown(message: Option<string>)

  /** The screen's state hooks: the rows, `loading` and `error`. */
  datatype Screen = Screen(devices: seq<Device>, loading: bool, error: Option<string>)

  /** The state when a screen mounts. */
  const Mounted := Screen([], true, None)

  /** The message stored for a failed fetch: the text of the Error thrown on
      a non-ok status, or the message of whatever was thrown. */
  function FetchErrorMessage(o: FetchOutcome): (m: Option<string>)
    requires !o.Fetched?
    ensures o.HttpFailure? ==> Truthy(m)
    ensures o.HttpFailure? ==> m == Some("Error HTTP: " + NatToDecimal(o.status) + " - " + o.statusText)
    ensures o.FetchThrown? ==> m == o.message
  {
    match o
    case HttpFailure(status, text) => Some("Error HTTP: " + NatToDecimal(status) + " - " + text)
    case FetchThrown(message) => message
  }

  /** First part of the fetch: before the request, loading on and error cleared. */
  function BeginFetch(s: Screen): (r: Screen)
    ensures r.loading && r.error == None && r.devices == s.devices
  {
    s.(loading := true, error := None)
  }

  /** Second part of the fetch: rows stored on success, message stored on
      failure, and loading off on every path. */
  function EndFetch(s: Screen, o: FetchOutcome): (r: Screen)
    ensures !r.loading
    ensures o.Fetched? ==> r.devices == o.rows && r.error == s.error
    ensures !o.Fetched? ==> r.devices == s.devices && r.error == FetchErrorMessage(o)
  {
    match o
    case Fetched(rows) => s.(devices := rows, loading := false)
    case _ => s.(error := FetchErrorMessage(o), loading := false)
  }

  // ---------------------------------------------------------------------
  // Content area: loading ? … : error ? … : list.length > 0 ? items : no-data

  datatype View = Loading | Failed(message: string) | Items(devices: seq<Device>) | NoData

  /** Precedence loading > error > non-empty list > no-data message, each
      branch chosen exactly when the ones before it are not; the list
      branch renders every row, in order. */
  function Select(s: Screen): (v: View)
    ensures v == Loading <==> s.loading
    ensures v.Failed? <==> !s.loading && Truthy(s.error)
    ensures v.Failed? ==> v.message == s.error.value
    ensures v.Items? <==> !s.loading && !Truthy(s.error) && |s.devices| > 0
    ensures v.Items? ==> v.devices == s.devices
    ensures v == NoData <==> !s.loading && !Truthy(s.error) && s.devices == []
  {
    if s.loading then Loading
    else if Truthy(s.error) then Failed(s.error.value)
    else if |s.devices| > 0 then Items(s.devices)
    else NoData
  }

  /** A whole fetch cycle. During the request the screen shows the loading
      text; afterwards it never does. A success shows the rows or the
      no-data text; a non-ok status always shows its error; an exception
      without a message (or with "") shows the rows held before, as if
      nothing had failed. */
  lemma {:induction false} FetchCycle(s: Screen, o: FetchOutcome)
    ensures Select(BeginFetch(s)) == Loading
    ensures var v := Select(EndFetch(BeginFetch(s), o));
      v != Loading
      && (o.Fetched? ==> v == (if |o.rows| > 0 then Items(o.rows) else NoData))
      && (o.HttpFailure? ==> v == Failed(FetchErrorMessage(o).value))
      && (o.FetchThrown? && Truthy(o.message) ==> v == Failed(o.message.value))
      && (o.FetchThrown? && !Truthy(o.message) ==>
            v == (if |s.devices| > 0 then Items(s.devices) else NoData))
  {
  }

  /** On the mounted screen a fetch that throws without a message ends on the no-data text. */
  lemma SilentFailureOnMount(m: Option<string>)
    requires !Truthy(m)
    ensures Select(EndFetch(BeginFetch(Mounted), FetchThrown(m))) == NoData
  {
    FetchCycle(Mounted, FetchThrown(m));
  }
}
