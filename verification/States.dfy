/** The states of the machine, and the fixed command most of them send on entry. */
module States {
  import opened Bytes

  datatype State =
    | ResetStageDecide | ResetStagePowerOff | ResetStagePowerOn
    | GprsReset | GpsUsartEchoOn | Init
    | AtQbtpwr | AtQbtvisb | AtQbtgatsreg | AtQbtgatsl
    | PinStatusCheck | EnterPin | GetSimImsi | SignalQualityCheck | RegistrationCheck | GprsAttachCheck
    | SmsTextMode | SmsCharacterSet | SetContext | ApnUserPasswdInput | MultipleConnectionsOff
    | SetModemMode | UseDns | SetReceiveMode | ControlWaitForConnect
    | CloseAndReconnect | CheckConnection | ConnectToServer
    | NetworkGpsUsartEchoOff | NetworkCheckReceive | NetworkBeginReceive | NetworkReceive
    | NetworkBeginSend | Sleep | Wake | CheckConnectionPreSend
    | NetworkPrepareSend | NetworkSend | NetworkAckCheck | NetworkAckCheckParse | NetworkDeclareRead
    | CancelSend
    | SmsBeginSend | SmsSendSingleNumber | SmsSendSingleBody | SmsSendSingleRemove
    | ShutDownStageStart | ShutDownStagePowerOff | ShutDown

  /** The others run an action of their own on entry, or none. */
  predicate SendsFixedCommand(s: State) {
    && !s.ResetStageDecide? && !s.ResetStagePowerOff? && !s.ResetStagePowerOn?
    && !s.ControlWaitForConnect? && !s.ConnectToServer?
    && !s.NetworkCheckReceive? && !s.NetworkReceive? && !s.NetworkBeginSend?
    && !s.NetworkPrepareSend? && !s.NetworkSend? && !s.NetworkAckCheckParse? && !s.NetworkDeclareRead?
    && !s.SmsBeginSend? && !s.SmsSendSingleNumber? && !s.SmsSendSingleBody? && !s.SmsSendSingleRemove?
    && !s.ShutDownStageStart? && !s.ShutDownStagePowerOff? && !s.ShutDown?
  }

  function FixedText(s: State): seq<Byte>
    requires SendsFixedCommand(s)
  {
    match s
    case GprsReset => "AT+CIPSHUT\r\n"
    case GpsUsartEchoOn => "ATE1\r\n"
    case Init => "AT\r\n"
    case AtQbtpwr => "AT+QBTPWR=1\r\n"
    case AtQbtvisb => "AT+QBTVISB=0\r\n"
    case AtQbtgatsreg => "AT+QBTGATSREG=1,\"ABC2\"\r\n"
    case AtQbtgatsl => "AT+QBTGATSL=\"ABC2\",1\r\n"
    case PinStatusCheck => "AT+CPIN?\r\n"
    case EnterPin => "AT+CPIN=1220\r\n"
    case GetSimImsi => "AT+CIMI\r\n"
    case SignalQualityCheck => "AT+CSQ\r\n"
    case RegistrationCheck => "AT+CREG?\r\n"
    case GprsAttachCheck => "AT+CGATT?\r\n"
    case SmsTextMode => "AT+CMGF=1\r\n"
    case SmsCharacterSet => "AT+CSCS=\"GSM\"\r\n"
    case SetContext => "AT+QIFGCNT=0\r\n"
    case ApnUserPasswdInput => "AT+QICSGP=1,\"internet\"\r\n"
    case MultipleConnectionsOff => "AT+QIMUX=0\r\n"
    case SetModemMode => "AT+QIMODE=0\r\n"
    case UseDns => "AT+QIDNSIP=1\r\n"
    case SetReceiveMode => "AT+QINDI=1\r\n"
    case CloseAndReconnect => "AT+QICLOSE\r\n"
    case CheckConnection => "AT+QISTATE\r\n"
    case CheckConnectionPreSend => "AT+QISTATE\r\n"
    case NetworkGpsUsartEchoOff => "AT+QISDE=0\r\n"
    case NetworkBeginReceive => "AT+QIRD=0,1,0,1500\r\n"
    case Sleep => "AT+QSCLK=2\r\n"
    case Wake => "AT\r\n"
    case NetworkAckCheck => "AT+QISACK\r\n"
    case CancelSend => "+++\r\n"
  }
}
