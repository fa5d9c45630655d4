/**
 * The lights screen: one LuzItem per row of `luces`, each with its own
 * optimistic switch, and the screen holding the rows, `loading` and `error`.
 */
module LucesCasa {
  import opened Wrappers
  import OT = OptimisticToggle
  import C = Collection
  import JsText

  /** What an item shows: the light's name and its switch. */
  datatype LuzCard = LuzCard(nombre: string, on: bool)

  /** An item given no row renders nothing; otherwise the name and the switch value. */
  function RenderLuzItem(luzData: Option<C.Device>, shown: bool): (card: Option<LuzCard>)
    ensures card.None? <==> luzData.None?
    ensures card.Some? ==> card.value.nombre == luzData.value.nombre && card.value.on == shown
  {
    match luzData
    case None => None
    case Some(d) => Some(LuzCard(d.nombre, shown))
  }

  /** One light and its switch state `estaEncendida`. */
  class LuzItem {
    const luzData: C.Device
    const hasOnToggle: bool
    var estaEncendida: bool

    /** The switch starts from the row's `estado`. */
    constructor (data: C.Device, onToggleGiven: bool)
      ensures luzData == data && hasOnToggle == onToggleGiven
      ensures estaEncendida == data.estado
    {
      luzData := data;
      hasOnToggle := onToggleGiven;
      estaEncendida := data.estado;
    }

    /** Up to the request: capture the displayed value, display its negation
        and build the PUT carrying that negation. */
    method BeginToggle() returns (p: OT.Pending, req: OT.UpdateRequest)
      modifies this
      ensures p == OT.Begin(old(estaEncendida))
      ensures estaEncendida == p.nuevo
      ensures req == OT.UpdateRequest("luces", luzData.id, p.nuevo)
    {
      var estadoPrevio := estaEncendida;
      var nuevoEstado := !estaEncendida;
      estaEncendida := nuevoEstado;
      p := OT.Pending(estadoPrevio, nuevoEstado);
      req := OT.UpdateRequest("luces", luzData.id, nuevoEstado);
    }

    /** After the request: on failure put the captured value back; on success
        leave the switch alone and tell the parent, if there is one. */
    method Settle(p: OT.Pending, o: OT.Outcome) returns (notified: Option<OT.Notification>)
      modifies this
      ensures estaEncendida == OT.Settle(old(estaEncendida), p, o)
      ensures notified == OT.Notify(hasOnToggle, luzData.id, p, o)
    {
      notified := None;
      if o.Ok? {
        if hasOnToggle {
          notified := Some(OT.Notification(luzData.id, p.nuevo));
        }
      } else {
        estaEncendida := p.previo;
      }
    }

    /** `toggleSwitch` run to completion with no other press in between. */
    method ToggleSwitch(o: OT.Outcome) returns (req: OT.UpdateRequest, notified: Option<OT.Notification>)
      modifies this
      ensures req == OT.UpdateRequest("luces", luzData.id, !old(estaEncendida))
      ensures estaEncendida == if o.Ok? then !old(estaEncendida) else old(estaEncendida)
      ensures notified.Some? <==> o.Ok? && hasOnToggle
      ensures notified.Some? ==> notified.value == OT.Notification(luzData.id, !old(estaEncendida))
    {
      var p;
      p, req := BeginToggle();
      notified := Settle(p, o);
    }
  }

  const LoadingText := "Cargando datos de las luces..."
  const ErrorPrefix := "Error al cargar las luces: "
  const NoDataText := "No se encontraron datos para las luces."

  /** The screen `lucesCasa` and its three state hooks. */
  class LucesScreen {
    var luces: seq<C.Device>
    var loading: bool
    var error: Option<string>

    function State(): C.Screen
      reads this
    {
      C.Screen(luces, loading, error)
    }

    constructor ()
      ensures State() == C.Mounted
    {
      luces := [];
      loading := true;
      error := None;
    }

    /** `fetchLuces` up to the request. */
    method StartFetch()
      modifies this
      ensures State() == C.BeginFetch(old(State()))
    {
      loading := true;
      error := None;
    }

    /** `fetchLuces` after the request, including its `finally`. */
    method FinishFetch(o: C.FetchOutcome)
      modifies this
      ensures State() == C.EndFetch(old(State()), o)
    {
      match o {
        case Fetched(rows) =>
          luces := rows;
        case HttpFailure(status, text) =>
          error := C.FetchErrorMessage(o);
        case FetchThrown(message) =>
          error := message;
      }
      loading := false;
    }

    /** `fetchLuces` as run on mount. */
    method FetchLuces(o: C.FetchOutcome)
      modifies this
      ensures State() == C.EndFetch(C.BeginFetch(old(State())), o)
    {
      StartFetch();
      FinishFetch(o);
    }

    /** `handleToggleLuz`: the callback an item calls after a successful toggle. */
    method HandleToggleLuz(idLuz: int, nuevoEstado: bool)
      modifies this
      ensures luces == C.SetEstado(old(luces), idLuz, nuevoEstado)
      ensures loading == old(loading) && error == old(error)
    {
      luces := C.SetEstado(luces, idLuz, nuevoEstado);
    }

    /** What the content area shows. */
    function Render(): C.View
      reads this
    {
      C.Select(State())
    }

    /** The text shown when the content area shows no list: the loading
        text while loading, else the error text for a truthy error, else
        nothing while there are rows, else the no-data text. */
    function Caption(): (c: Option<string>)
      reads this
      ensures loading ==> c == Some(LoadingText)
      ensures !loading && JsText.Truthy(error) ==> c == Some(ErrorPrefix + error.value)
      ensures c.None? <==> !loading && !JsText.Truthy(error) && |luces| > 0
      ensures !loading && !JsText.Truthy(error) && luces == [] ==> c == Some(NoDataText)
    {
      match Render()
      case Loading => Some(LoadingText)
      case Failed(m) => Some(ErrorPrefix + m)
      case Items(_) => None
      case NoData => Some(NoDataText)
    }
  }

  /** A successful toggle of an item, reported to the screen, leaves every
      row with that id in the screen's list holding the value the item shows. */
  method ToggleAndSync(screen: LucesScreen, item: LuzItem)
    requires item.hasOnToggle
    modifies screen, item
    ensures item.estaEncendida == !old(item.estaEncendida)
    ensures screen.luces == C.SetEstado(old(screen.luces), item.luzData.id, item.estaEncendida)
    ensures screen.loading == old(screen.loading) && screen.error == old(screen.error)
    ensures forall i :: 0 <= i < |screen.luces| && screen.luces[i].id == item.luzData.id ==>
              screen.luces[i].estado == item.estaEncendida
    ensures forall i :: 0 <= i < |screen.luces| && screen.luces[i].id != item.luzData.id ==>
              screen.luces[i] == old(screen.luces)[i]
    ensures |screen.luces| == |old(screen.luces)|
  {
    var req, notified := item.ToggleSwitch(OT.Ok);
    screen.HandleToggleLuz(notified.value.id, notified.value.estado);
    C.SetEstadoFrame(old(screen.luces), notified.value.id, notified.value.estado);
  }
}
