/**
 * The doors screen: one PuertaItem per row of `puertas`, each with its own
 * optimistic switch and an icon chosen from it, and the screen holding the
 * rows, `loading` and `error`.
 */
module PuertasCasa {
  import opened Wrappers
  import OT = OptimisticToggle
  import C = Collection
  import JsText

  /** The icon drawn for a switch value: 'door' while the switch is on
      (open) and 'door-open' while it is off, as the screen has it. */
  function DoorIcon(estaAbierta: bool): (icon: string)
    ensures icon == "door" <==> estaAbierta
    ensures icon == "door-open" <==> !estaAbierta
  {
    if estaAbierta then "door" else "door-open"
  }

  /** What an item shows: the icon, the door's name and its switch. */
  datatype PuertaCard = PuertaCard(icon: string, nombre: string, open: bool)

  /** An item given no row renders nothing; otherwise the icon for the
      switch value, the name and the switch value. */
  function RenderPuertaItem(puertaData: Option<C.Device>, shown: bool): (card: Option<PuertaCard>)
    ensures card.None? <==> puertaData.None?
    ensures card.Some? ==> card.value.nombre == puertaData.value.nombre && card.value.open == shown
    ensures card.Some? ==> (card.value.icon == "door" <==> shown)
  {
    match puertaData
    case None => None
    case Some(d) => Some(PuertaCard(DoorIcon(shown), d.nombre, shown))
  }

  /** One door and its switch state `estaAbierta`. */
  class PuertaItem {
    const puertaData: C.Device
    const hasOnToggle: bool
    var estaAbierta: bool

    /** The switch starts from the row's `estado`. */
    constructor (data: C.Device, onToggleGiven: bool)
      ensures puertaData == data && hasOnToggle == onToggleGiven
      ensures estaAbierta == data.estado
    {
      puertaData := data;
      hasOnToggle := onToggleGiven;
      estaAbierta := data.estado;
    }

    /** Up to the request: capture the displayed value, display its negation
        and build the PUT carrying that negation. */
    method BeginToggle() returns (p: OT.Pending, req: OT.UpdateRequest)
      modifies this
      ensures p == OT.Begin(old(estaAbierta))
      ensures estaAbierta == p.nuevo
      ensures req == OT.UpdateRequest("puertas", puertaData.id, p.nuevo)
    {
      var estadoPrevio := estaAbierta;
      var nuevoEstado := !estaAbierta;
      estaAbierta := nuevoEstado;
      p := OT.Pending(estadoPrevio, nuevoEstado);
      req := OT.UpdateRequest("puertas", puertaData.id, nuevoEstado);
    }

    /** After the request: on failure put the captured value back; on success
        leave the switch alone and tell the parent, if there is one. */
    method Settle(p: OT.Pending, o: OT.Outcome) returns (notified: Option<OT.Notification>)
      modifies this
      ensures estaAbierta == OT.Settle(old(estaAbierta), p, o)
      ensures notified == OT.Notify(hasOnToggle, puertaData.id, p, o)
    {
      notified := None;
      if o.Ok? {
        if hasOnToggle {
          notified := Some(OT.Notification(puertaData.id, p.nuevo));
        }
      } else {
        estaAbierta := p.previo;
      }
    }

    /** `toggleSwitch` run to completion with no other press in between. */
    method ToggleSwitch(o: OT.Outcome) returns (req: OT.UpdateRequest, notified: Option<OT.Notification>)
      modifies this
      ensures req == OT.UpdateRequest("puertas", puertaData.id, !old(estaAbierta))
      ensures estaAbierta == if o.Ok? then !old(estaAbierta) else old(estaAbierta)
      ensures notified.Some? <==> o.Ok? && hasOnToggle
      ensures notified.Some? ==> notified.value == OT.Notification(puertaData.id, !old(estaAbierta))
    {
      var p;
      p, req := BeginToggle();
      notified := Settle(p, o);
    }
  }

  const LoadingText := "Cargando datos de las puertas..."
  const ErrorPrefix := "Error al cargar las puertas: "
  const NoDataText := "No se encontraron datos para las puertas."

  /** The screen `puertasCasa` and its three state hooks. */
  class PuertasScreen {
    var puertas: seq<C.Device>
    var loading: bool
    var error: Option<string>

    function State(): C.Screen
      reads this
    {
      C.Screen(puertas, loading, error)
    }

    constructor ()
      ensures State() == C.Mounted
    {
      puertas := [];
      loading := true;
      error := None;
    }

    /** `fetchPuertas` up to the request. */
    method StartFetch()
      modifies this
      ensures State() == C.BeginFetch(old(State()))
    {
      loading := true;
      error := None;
    }

    /** `fetchPuertas` after the request, including its `finally`. */
    method FinishFetch(o: C.FetchOutcome)
      modifies this
      ensures State() == C.EndFetch(old(State()), o)
    {
      match o {
        case Fetched(rows) =>
          puertas := rows;
        case HttpFailure(status, text) =>
          error := C.FetchErrorMessage(o);
        case FetchThrown(message) =>
          error := message;
      }
      loading := false;
    }

    /** `fetchPuertas` as run on mount. */
    method FetchPuertas(o: C.FetchOutcome)
      modifies this
      ensures State() == C.EndFetch(C.BeginFetch(old(State())), o)
    {
      StartFetch();
      FinishFetch(o);
    }

    /** `handleTogglePuerta`: the callback an item calls after a successful toggle. */
    method HandleTogglePuerta(idPuerta: int, nuevoEstado: bool)
      modifies this
      ensures puertas == C.SetEstado(old(puertas), idPuerta, nuevoEstado)
      ensures loading == old(loading) && error == old(error)
    {
      puertas := C.SetEstado(puertas, idPuerta, nuevoEstado);
    }

    /** What the content area shows. */
    function Render(): C.View
      reads this
    {
      C.Select(State())
    }

    /** The text shown when the content area shows no list: the loading
        text while loading, else the error text for a truthy error, else
        nothing while there are rows, else the no-data text. */
    function Caption(): (c: Option<string>)
      reads this
      ensures loading ==> c == Some(LoadingText)
      ensures !loading && JsText.Truthy(error) ==> c == Some(ErrorPrefix + error.value)
      ensures c.None? <==> !loading && !JsText.Truthy(error) && |puertas| > 0
      ensures !loading && !JsText.Truthy(error) && puertas == [] ==> c == Some(NoDataText)
    {
      match Render()
      case Loading => Some(LoadingText)
      case Failed(m) => Some(ErrorPrefix + m)
      case Items(_) => None
      case NoData => Some(NoDataText)
    }
  }

  /** A successful toggle of an item, reported to the screen, leaves every
      row with that id in the screen's list holding the value the item shows. */
  method ToggleAndSync(screen: PuertasScreen, item: PuertaItem)
    requires item.hasOnToggle
    modifies screen, item
    ensures item.estaAbierta == !old(item.estaAbierta)
    ensures screen.puertas == C.SetEstado(old(screen.puertas), item.puertaData.id, item.estaAbierta)
    ensures screen.loading == old(screen.loading) && screen.error == old(screen.error)
    ensures forall i :: 0 <= i < |screen.puertas| && screen.puertas[i].id == item.puertaData.id ==>
              screen.puertas[i].estado == item.estaAbierta
    ensures forall i :: 0 <= i < |screen.puertas| && screen.puertas[i].id != item.puertaData.id ==>
              screen.puertas[i] == old(screen.puertas)[i]
    ensures |screen.puertas| == |old(screen.puertas)|
  {
    var req, notified := item.ToggleSwitch(OT.Ok);
    screen.HandleTogglePuerta(notified.value.id, notified.value.estado);
    C.SetEstadoFrame(old(screen.puertas), notified.value.id, notified.value.estado);
  }
}
