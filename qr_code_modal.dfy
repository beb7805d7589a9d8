/**
 * The QR-code pairing dialog (`src/components/Channels/QRCodeModal.tsx`):
 * how the events of the WhatsApp service update the dialog's
 * `(qrCode, status, error)` state, which of four panels it shows, and how
 * it registers with, refreshes and leaves the service.
 */
module QrCodeModal {
  import opened Common
  import opened WhatsApp

  datatype ModalState = ModalState(qrCode: Option<string>, status: ConnectionStatus, error: Option<string>)

  /** The parent's callbacks the dialog fires. */
  datatype Callback = OnConnect | OnClose

  datatype Step = Step(state: ModalState, fired: seq<Callback>)

  const InitialState := ModalState(None, Disconnected, None)

  /** One call of the `handleUpdate` listener. */
  function Update(m: ModalState, e: Event): (r: Step)
    ensures e.QrEvent? ==> r.state.qrCode == Some(e.qr) && r.state.error == None
    ensures e.StatusEvent? ==> r.state.status == e.status
    ensures e.ErrorEvent? ==> r.state.error == Some(e.message)
    ensures !e.StatusEvent? ==> r.state.status == m.status
    ensures !e.QrEvent? ==> r.state.qrCode == m.qrCode
    ensures e.StatusEvent? ==> r.state.qrCode == m.qrCode && r.state.error == m.error
    ensures e.OtherEvent? ==> r.state == m
    ensures r.fired == (if e == StatusEvent(Connected) then [OnConnect, OnClose] else [])
  {
    match e
    case QrEvent(qr) => Step(m.(qrCode := Some(qr), error := None), [])
    case StatusEvent(s) => Step(m.(status := s), if s == Connected then [OnConnect, OnClose] else [])
    case ErrorEvent(message) => Step(m.(error := Some(message)), [])
    case OtherEvent(_) => Step(m, [])
  }

  /** The four bodies the dialog can show. */
  datatype Panel = Spinner | ErrorPanel(message: string) | QrView(image: string) | Waiting

  /** The nested conditional that picks the dialog's body. */
  function Render(m: ModalState): (p: Panel)
    ensures p.ErrorPanel? ==> m.error == Some(p.message) && p.message != ""
    ensures p.QrView? ==> m.qrCode == Some(p.image) && p.image != ""
    ensures p.Spinner? <==> m.status == Connecting && !Truthy(m.qrCode)
  {
    if m.status == Connecting && !Truthy(m.qrCode) then Spinner
    else if Truthy(m.error) then ErrorPanel(m.error.value)
    else if Truthy(m.qrCode) then QrView(m.qrCode.value)
    else Waiting
  }

  /** The panels in priority order: spinner, then error, then QR code, then waiting. */
  lemma RenderPriority(m: ModalState)
    ensures Render(m).ErrorPanel? <==> !(m.status == Connecting && !Truthy(m.qrCode)) && Truthy(m.error)
    ensures Render(m).QrView? <==> !(m.status == Connecting && !Truthy(m.qrCode)) && !Truthy(m.error) && Truthy(m.qrCode)
    ensures Render(m) == Waiting <==> m.status != Connecting && !Truthy(m.error) && !Truthy(m.qrCode)
  {
  }

  /** A non-empty QR payload is shown at once, whatever the dialog showed before. */
  lemma QrEventShowsCode(m: ModalState, qr: string)
    requires qr != ""
    ensures Render(Update(m, QrEvent(qr)).state) == QrView(qr)
  {
  }

  /**
   * An error is shown unless the start-up spinner is up, in which case the
   * spinner hides it.
   */
  lemma ErrorEventShowsMessage(m: ModalState, message: string)
    requires message != ""
    ensures Render(Update(m, ErrorEvent(message)).state)
            == if m.status == Connecting && !Truthy(m.qrCode) then Spinner else ErrorPanel(message)
  {
  }

  /** After a refresh has cleared the code and the error and the service reported `disconnected`, the dialog waits. */
  lemma RefreshedDialogWaits(m: ModalState)
    ensures Render(Update(m.(qrCode := None, error := None), StatusEvent(Disconnected)).state) == Waiting
  {
  }

  class QrModal {
    var qrCode: Option<string>
    var status: ConnectionStatus
    var error: Option<string>
    /** The parent's callbacks fired so far. */
    var fired: seq<Callback>
    /** The identity of this dialog's `handleUpdate` callback. */
    const listener: ListenerId

    function State(): ModalState
      reads this
    {
      ModalState(qrCode, status, error)
    }

    constructor (listener: ListenerId)
      ensures State() == InitialState && fired == [] && this.listener == listener
    {
      qrCode, status, error := None, Disconnected, None;
      fired := [];
      this.listener := listener;
    }

    method HandleUpdate(e: Event)
      modifies this
      ensures State() == Update(old(State()), e).state
      ensures fired == old(fired) + Update(old(State()), e).fired
    {
      match e
      case QrEvent(qr) =>
        qrCode := Some(qr);
        error := None;
      case StatusEvent(s) =>
        status := s;
        if s == Connected {
          fired := fired + [OnConnect];
          fired := fired + [OnClose];
        }
      case ErrorEvent(message) =>
        error := Some(message);
      case OtherEvent(_) =>
    }

    /**
     * The mount effect: register `handleUpdate` with the service, which calls
     * it at once with the current status.
     */
    method Mount(svc: WhatsAppService)
      requires svc.Valid()
      modifies this, svc`listeners, svc`delivered
      ensures svc.Valid()
      ensures svc.listeners == Register(old(svc.listeners), listener)
      ensures svc.status == old(svc.status)
      ensures svc.delivered == old(svc.delivered) + [Delivery(listener, StatusEvent(svc.status))]
      ensures State() == Update(old(State()), StatusEvent(svc.status)).state
      ensures fired == old(fired) + Update(old(State()), StatusEvent(svc.status)).fired
    {
      svc.AddListener(listener);
      HandleUpdate(StatusEvent(svc.status));
    }

    /** The cleanup of the mount effect: the same callback is removed. */
    method Unmount(svc: WhatsAppService)
      requires svc.Valid()
      modifies svc`listeners
      ensures svc.Valid()
      ensures svc.listeners == Unregister(old(svc.listeners), listener)
      ensures listener !in svc.listeners
    {
      svc.RemoveListener(listener);
    }

    /**
     * `handleRefresh`: clear the error and the code, then disconnect the
     * service, whose `disconnected` status reaches this dialog when it is
     * registered.
     */
    method Refresh(svc: WhatsAppService, writeSucceeds: bool)
      requires svc.Valid()
      modifies this, svc
      ensures svc.Valid() && svc.status == Disconnected
      ensures svc.listeners == old(svc.listeners)
      ensures svc.delivered == old(svc.delivered) + Broadcast(svc.listeners, StatusEvent(Disconnected))
      ensures svc.persisted == if writeSucceeds then Some(false) else old(svc.persisted)
      ensures qrCode == None && error == None
      ensures status == if listener in svc.listeners then Disconnected else old(status)
      ensures fired == old(fired)
    {
      error := None;
      qrCode := None;
      svc.Disconnect(writeSucceeds);
      if listener in svc.listeners {
        HandleUpdate(StatusEvent(Disconnected));
      }
    }
  }
}
