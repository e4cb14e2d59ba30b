/**
 * The WhatsApp connection panel: the status lookups behind the badge and the
 * buttons, and the component state that the status poll and the QR-code
 * request update. The messaging gateway is not modelled; what its two calls
 * answer is an input of each handler.
 */
module WhatsAppConnectionsReal {
  import opened Wrappers
  import opened Toasts

  // ---------------------------------------------------------------------------
  // Status lookups (exact, case-sensitive string matches)
  // ---------------------------------------------------------------------------

  /** The badge colour: green, yellow, red or the gray default. */
  datatype StatusColor = Green | Yellow | Red | Gray

  /** The badge colour; gray exactly for `erro` and the statuses the lookups do not name. */
  function GetStatusColor(status: string): (c: StatusColor)
    ensures c == Gray <==> !KnownStatus(status) || status == "erro"
  {
    if status == "CONNECTED" || status == "conectado" then Green
    else if status == "aguardando-conexao" then Yellow
    else if status == "desconectado" || status == "DISCONNECTED" then Red
    else Gray
  }

  /** The badge text, one of five. */
  function GetStatusText(status: string): (t: string)
    ensures t in ["Conectado", "Aguardando Conexão", "Desconectado", "Erro", "Desconhecido"]
  {
    if status == "CONNECTED" || status == "conectado" then "Conectado"
    else if status == "aguardando-conexao" then "Aguardando Conexão"
    else if status == "desconectado" || status == "DISCONNECTED" then "Desconectado"
    else if status == "erro" then "Erro"
    else "Desconhecido"
  }

  /** `isConnected`: the statuses shown with the green badge. */
  predicate IsConnected(status: string): (b: bool)
    ensures b ==> GetStatusColor(status) == Green
  {
    status == "CONNECTED" || status == "conectado"
  }

  /** `isDisconnected`: the statuses shown with the red badge. */
  predicate IsDisconnected(status: string): (b: bool)
    ensures b ==> GetStatusColor(status) == Red
  {
    status == "desconectado" || status == "DISCONNECTED"
  }

  /** The six status strings the lookups name. */
  predicate KnownStatus(status: string)
  {
    status == "CONNECTED" || status == "conectado" || status == "aguardando-conexao"
    || status == "desconectado" || status == "DISCONNECTED" || status == "erro"
  }

  /** The text lookup, each case both ways. */
  lemma StatusTextCases(status: string)
    ensures GetStatusText(status) == "Conectado" <==> status == "CONNECTED" || status == "conectado"
    ensures GetStatusText(status) == "Aguardando Conexão" <==> status == "aguardando-conexao"
    ensures GetStatusText(status) == "Desconectado" <==> status == "desconectado" || status == "DISCONNECTED"
    ensures GetStatusText(status) == "Erro" <==> status == "erro"
    ensures GetStatusText(status) == "Desconhecido" <==> !KnownStatus(status)
  {
  }

  /** Matching is on exact case: other spellings are unknown. */
  lemma LookupsAreCaseSensitive()
    ensures GetStatusText("connected") == "Desconhecido" && GetStatusText("Conectado") == "Desconhecido"
    ensures GetStatusText("disconnected") == "Desconhecido" && GetStatusText("ERRO") == "Desconhecido"
    ensures !IsConnected("Connected") && !IsDisconnected("Disconnected")
  {
  }

  /** `isConnected` is exactly "the badge reads Conectado", `isDisconnected` exactly "it reads Desconectado". */
  lemma PredicatesAgreeWithText(status: string)
    ensures IsConnected(status) <==> GetStatusText(status) == "Conectado"
    ensures IsDisconnected(status) <==> GetStatusText(status) == "Desconectado"
    ensures !(IsConnected(status) && IsDisconnected(status))
  {
    StatusTextCases(status);
  }

  /** The colour follows the text, except that `erro` is gray like an unknown status. */
  lemma ColorAgreesWithText(status: string)
    ensures GetStatusColor(status) == Green <==> GetStatusText(status) == "Conectado"
    ensures GetStatusColor(status) == Yellow <==> GetStatusText(status) == "Aguardando Conexão"
    ensures GetStatusColor(status) == Red <==> GetStatusText(status) == "Desconectado"
    ensures GetStatusColor(status) == Gray <==> GetStatusText(status) in {"Erro", "Desconhecido"}
  {
    StatusTextCases(status);
  }

  /** `erro` shares the unknown status's colour but not its text. */
  lemma ErroGrayButNamed()
    ensures GetStatusColor("erro") == GetStatusColor("desconhecido") == Gray
    ensures GetStatusText("erro") == "Erro" != GetStatusText("desconhecido")
  {
  }

  // ---------------------------------------------------------------------------
  // Component state and its two transitions
  // ---------------------------------------------------------------------------

  /** The three state fields: status string, QR image (or null), and the poll-in-flight flag. */
  datatype PanelState = PanelState(status: string, qrCode: Option<string>, verificandoStatus: bool)

  /** The state on mount: status `desconhecido`, no QR code, no poll running. */
  const InitialPanel := PanelState("desconhecido", None, false)

  /** What `verificarStatus` yields: a response `{value, status}` (status possibly absent), or a thrown error. */
  datatype StatusResponse = StatusReply(value: bool, status: Option<string>) | StatusThrew

  /** What `obterQRCode` yields: a response whose `qrcode` may be absent, or a thrown error. */
  datatype QrResponse = QrReply(qrcode: Option<string>) | QrThrew

  /** JavaScript truthiness of an optional string: present and non-empty. */
  predicate Truthy(s: Option<string>)
  {
    s.Some? && s.value != ""
  }

  /** The state after a status poll that answered `r`. */
  function AfterStatusPoll(s: PanelState, r: StatusResponse): (t: PanelState)
    ensures !t.verificandoStatus
    ensures t.qrCode == None || t.qrCode == s.qrCode
  {
    match r
    case StatusThrew => s.(status := "erro", verificandoStatus := false)
    case StatusReply(value, st) =>
      if !value then s.(status := "desconectado", verificandoStatus := false)
      else
        var status := if Truthy(st) then st.value else "conectado";
        var qr := if st == Some("CONNECTED") then None else s.qrCode;
        PanelState(status, qr, false)
  }

  /** The state after a QR-code request that answered `r`. */
  function AfterQrRequest(s: PanelState, r: QrResponse): (t: PanelState)
    ensures t.verificandoStatus == s.verificandoStatus
    ensures t == s || (t.status == "aguardando-conexao" && Truthy(t.qrCode))
  {
    if r.QrReply? && Truthy(r.qrcode) then s.(qrCode := r.qrcode, status := "aguardando-conexao")
    else s
  }

  /** The toast a QR-code request shows. */
  function QrToast(r: QrResponse): (t: Toast)
    ensures t.destructive <==> t.title == "Erro"
    ensures t.destructive <==> !(r.QrReply? && Truthy(r.qrcode))
  {
    match r
    case QrThrew => Toast("Erro", "Falha ao gerar QR Code. Tente novamente.", true)
    case QrReply(q) =>
      if Truthy(q) then Toast("QR Code gerado", "Escaneie o código com seu WhatsApp para conectar", false)
      else Toast("Erro", "Não foi possível obter o QR Code", true)
  }

  /** A poll always ends idle and always sets the status, whatever the status was before. */
  lemma PollSetsStatusRegardless(s: PanelState, t: PanelState, r: StatusResponse)
    ensures !AfterStatusPoll(s, r).verificandoStatus
    ensures AfterStatusPoll(s, r).status == AfterStatusPoll(t, r).status
  {
  }

  /** The status a poll sets, case by case. */
  lemma PollStatus(s: PanelState, r: StatusResponse)
    ensures r.StatusThrew? ==> AfterStatusPoll(s, r).status == "erro"
    ensures r.StatusReply? && !r.value ==> AfterStatusPoll(s, r).status == "desconectado"
    ensures r.StatusReply? && r.value && Truthy(r.status) ==> AfterStatusPoll(s, r).status == r.status.value
    ensures r.StatusReply? && r.value && !Truthy(r.status) ==> AfterStatusPoll(s, r).status == "conectado"
  {
  }

  /** A poll clears the QR code exactly when it answers connected with the exact string `CONNECTED`. */
  lemma PollClearsQrOnlyOnConnected(s: PanelState, r: StatusResponse)
    ensures AfterStatusPoll(s, r).qrCode ==
              if r == StatusReply(true, Some("CONNECTED")) then None else s.qrCode
  {
  }

  /** The gateway's `{value: true, status: "CONNECTED"}` shows as connected with no QR code. */
  lemma ConnectedReplyClearsQr(s: PanelState)
    ensures var t := AfterStatusPoll(s, StatusReply(true, Some("CONNECTED")));
            IsConnected(t.status) && GetStatusText(t.status) == "Conectado" && t.qrCode == None
  {
  }

  /**
   * A reply with `value` true but no status (or `conectado`) shows Conectado
   * while a QR code obtained earlier stays on screen.
   */
  lemma ConnectedDisplayKeepsStaleQr(q: string)
    requires q != ""
    ensures var t := AfterStatusPoll(PanelState("aguardando-conexao", Some(q), false), StatusReply(true, None));
            IsConnected(t.status) && t.qrCode == Some(q)
    ensures var t := AfterStatusPoll(PanelState("aguardando-conexao", Some(q), false), StatusReply(true, Some("conectado")));
            IsConnected(t.status) && t.qrCode == Some(q)
  {
  }

  /** A QR request with a payload shows the code and awaits pairing, so the Conectar button goes away. */
  lemma QrSuccess(s: PanelState, r: QrResponse)
    requires r.QrReply? && Truthy(r.qrcode)
    ensures var t := AfterQrRequest(s, r);
            t.qrCode == r.qrcode && t.status == "aguardando-conexao" && t.verificandoStatus == s.verificandoStatus
    ensures var t := AfterQrRequest(s, r);
            !IsDisconnected(t.status) && GetStatusText(t.status) == "Aguardando Conexão"
    ensures !QrToast(r).destructive
  {
  }

  /** A QR request without a payload, or one that throws, changes nothing and shows an error. */
  lemma QrFailureLeavesState(s: PanelState, r: QrResponse)
    requires !(r.QrReply? && Truthy(r.qrcode))
    ensures AfterQrRequest(s, r) == s
    ensures QrToast(r).destructive && QrToast(r).title == "Erro"
  {
  }

  /** Pairing, then a poll answering `CONNECTED`, ends connected with the QR code gone. */
  lemma PairThenConnect(s: PanelState, q: string)
    requires q != ""
    ensures var t := AfterStatusPoll(AfterQrRequest(s, QrReply(Some(q))), StatusReply(true, Some("CONNECTED")));
            IsConnected(t.status) && t.qrCode == None && !t.verificandoStatus
  {
  }

  /** On mount the badge reads Desconhecido and neither the Conectar button nor the connected banner shows. */
  lemma InitialDisplay()
    ensures GetStatusText(InitialPanel.status) == "Desconhecido"
    ensures GetStatusColor(InitialPanel.status) == Gray
    ensures !IsDisconnected(InitialPanel.status) && !IsConnected(InitialPanel.status)
    ensures InitialPanel.qrCode == None
  {
  }

  /** The panel component's state. */
  class ConnectionPanel {
    var status: string
    var qrCode: Option<string>
    var verificandoStatus: bool

    constructor ()
      ensures State() == InitialPanel
      ensures !ConectarOffered()
    {
      status := "desconhecido";
      qrCode := None;
      verificandoStatus := false;
    }

    function State(): PanelState
      reads this
    {
      PanelState(status, qrCode, verificandoStatus)
    }

    /** The "Conectar WhatsApp" button is offered only while the status reads disconnected. */
    predicate ConectarOffered(): (offered: bool)
      reads this
      ensures offered <==> GetStatusText(status) == "Desconectado"
    {
      IsDisconnected(status)
    }

    /** "Atualizar Status": mark the poll running, apply the answer, and clear the flag whatever happened. */
    method HandleVerificarStatus(r: StatusResponse)
      modifies this
      ensures State() == AfterStatusPoll(old(State()), r)
      ensures ConectarOffered() <==>
                r.StatusReply? && (!r.value || (Truthy(r.status) && IsDisconnected(r.status.value)))
    {
      verificandoStatus := true;
      match r {
        case StatusThrew =>
          status := "erro";
        case StatusReply(value, st) =>
          if value {
            status := if Truthy(st) then st.value else "conectado";
            if st == Some("CONNECTED") {
              qrCode := None;
            }
          } else {
            status := "desconectado";
          }
      }
      verificandoStatus := false;
    }

    /** "Conectar WhatsApp": store a returned QR code and await pairing; otherwise only a toast. */
    method HandleObterQRCode(r: QrResponse) returns (toast: Toast)
      modifies this
      ensures State() == AfterQrRequest(old(State()), r)
      ensures toast == QrToast(r)
      ensures r.QrReply? && Truthy(r.qrcode) ==> !ConectarOffered()
    {
      if r.QrReply? && Truthy(r.qrcode) {
        qrCode := r.qrcode;
        status := "aguardando-conexao";
        toast := Toast("QR Code gerado", "Escaneie o código com seu WhatsApp para conectar", false);
      } else if r.QrReply? {
        toast := Toast("Erro", "Não foi possível obter o QR Code", true);
      } else {
        toast := Toast("Erro", "Falha ao gerar QR Code. Tente novamente.", true);
      }
    }
  }
}
