/** The data types of src/api/types.ts. Two revisions of that file are in
    use: the one with numeric enums (`Status`, `AppType`), read by the sender
    page, and a later one with `GlobalStatus`, `TemplateAPP`, `MessageType` and
    `MessageStatus`, whose declarations are not part of this model and whose
    members are therefore abstract constructors here. */
module ApiTypes {
  import opened Js

  // ---------------------------------------------------------------------------
  // The numeric enums of the revision shown in src/api/types.ts

  /** `Status.ENABLED`. */
  const StatusENABLED := Num(1)

  /** `AppType.EMAIL` and `AppType.WEBHOOK`. */
  const AppTypeEMAIL := Num(0)
  const AppTypeWEBHOOK := Num(1)

  // ---------------------------------------------------------------------------
  // The enums of the later revision

  /** `GlobalStatus`. Its values are the strings of the member names: the
      template editor compares an item's status with the literal 'ENABLED'. */
  datatype GlobalStatus = ENABLED | DISABLED

  function GlobalStatusValue(s: GlobalStatus): JsValue {
    if s == ENABLED then Str("ENABLED") else Str("DISABLED")
  }

  /** `TemplateAPP`: the five members the template pages name, and any other
      member the server may send. */
  datatype TemplateApp =
    | TEMPLATE_APP_EMAIL
    | TEMPLATE_APP_WEBHOOK_DINGTALK
    | TEMPLATE_APP_WEBHOOK_WECHAT
    | TEMPLATE_APP_WEBHOOK_FEISHU
    | TEMPLATE_APP_WEBHOOK_OTHER
    | UnlistedTemplateApp(member: string)

  function TemplateAppValue(a: TemplateApp): JsValue {
    match a
    case TEMPLATE_APP_EMAIL => Enum("TEMPLATE_APP_EMAIL")
    case TEMPLATE_APP_WEBHOOK_DINGTALK => Enum("TEMPLATE_APP_WEBHOOK_DINGTALK")
    case TEMPLATE_APP_WEBHOOK_WECHAT => Enum("TEMPLATE_APP_WEBHOOK_WECHAT")
    case TEMPLATE_APP_WEBHOOK_FEISHU => Enum("TEMPLATE_APP_WEBHOOK_FEISHU")
    case TEMPLATE_APP_WEBHOOK_OTHER => Enum("TEMPLATE_APP_WEBHOOK_OTHER")
    case UnlistedTemplateApp(m) => Enum(m)
  }

  /** `MessageType`: the two members the message-log page names, and any other. */
  datatype MessageType = Email | Webhook | UnlistedMessageType(member: string)

  function MessageTypeValue(t: MessageType): JsValue {
    match t
    case Email => Enum("Email")
    case Webhook => Enum("Webhook")
    case UnlistedMessageType(m) => Enum(m)
  }

  /** `MessageStatus`: the four members the message-log page names, and any other. */
  datatype MessageStatus = Pending | Sending | Failed | Cancelled | UnlistedMessageStatus(member: string)

  function MessageStatusValue(s: MessageStatus): JsValue {
    match s
    case Pending => Enum("Pending")
    case Sending => Enum("Sending")
    case Failed => Enum("Failed")
    case Cancelled => Enum("Cancelled")
    case UnlistedMessageStatus(m) => Enum(m)
  }

  // ---------------------------------------------------------------------------
  // Records

  /** `NamespaceItem`; the console only reads its `name`. */
  datatype NamespaceItem = NamespaceItem(
    name: string,
    metadata: Option<map<string, string>>,
    createdAt: string,
    updatedAt: string,
    status: JsValue)

  /** `TemplateItem` of the later revision. */
  datatype TemplateItem = TemplateItem(
    uid: string,
    name: string,
    app: TemplateApp,
    jsonData: string,
    createdAt: string,
    updatedAt: string,
    status: GlobalStatus)

  /** `MessageLogItem` of the later revision. */
  datatype MessageLogItem = MessageLogItem(
    uid: string,
    messageType: MessageType,
    status: MessageStatus,
    sendAt: string,
    message: string,
    createdAt: string,
    updatedAt: string)

  /** A `Record<string, string>` as a JavaScript object. */
  function StringRecord(m: map<string, string>): JsValue {
    Obj(map k | k in m :: Str(m[k]))
  }
}
