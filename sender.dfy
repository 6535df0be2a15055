/** The send page of src/pages/Sender.tsx: the lookup lists it loads, the
    split of the loaded templates by app, the recipient list of a direct
    e-mail, and the direct-or-template dispatch of both send forms. */
module Sender {
  import opened Js
  import opened Http
  import opened ApiTypes
  import opened FormErrors
  import opened Services

  // ---------------------------------------------------------------------------
  // Recipients

  /** `to.split(',').map(s => s.trim())`. */
  function Recipients(to: string): (r: seq<string>)
    ensures |r| == |Split(to, ',')|
    ensures forall i :: 0 <= i < |r| ==> r[i] == Trim(Split(to, ',')[i])
  {
    var parts := Split(to, ',');
    seq(|parts|, i requires 0 <= i < |parts| => Trim(parts[i]))
  }

  /** The recipients are the trimmed comma-free pieces of `to`, in order:
      joining the pieces back with commas gives `to`, and an empty piece
      (two commas in a row, a trailing comma) stays as an empty recipient. */
  lemma RecipientsArePieces(to: string)
    ensures |Recipients(to)| >= 1
    ensures Join(Split(to, ','), ',') == to
    ensures forall i :: 0 <= i < |Split(to, ',')| ==> ',' !in Split(to, ',')[i]
    ensures forall i :: 0 <= i < |Split(to, ',')| && Split(to, ',')[i] == "" ==> Recipients(to)[i] == ""
  {
    SplitPieces(to, ',');
    JoinSplit(to, ',');
  }

  /** A list of trimmed addresses without commas survives being typed in as
      a comma-separated string. */
  lemma RecipientsRoundTrip(addresses: seq<string>)
    requires |addresses| >= 1
    requires forall i :: 0 <= i < |addresses| ==> ',' !in addresses[i] && Trim(addresses[i]) == addresses[i]
    ensures Recipients(Join(addresses, ',')) == addresses
  {
    SplitJoin(addresses, ',');
  }

  /** No recipient starts or ends with white space. */
  lemma RecipientsTrimmed(to: string, i: int)
    requires 0 <= i < |Recipients(to)|
    ensures var r := Recipients(to)[i]; r == [] || (!IsSpace(r[0]) && !IsSpace(r[|r| - 1]))
  {
    TrimIsMiddle(Split(to, ',')[i]);
  }

  // ---------------------------------------------------------------------------
  // Templates by app

  /** `items.filter(t => t.app === app)`. */
  function WithApp(items: seq<Object>, app: JsValue): (r: seq<Object>)
    ensures |r| <= |items|
  {
    if items == [] then []
    else (if Prop(items[0], "app") == app then [items[0]] else []) + WithApp(items[1..], app)
  }

  /** The filter keeps exactly the templates of that app. */
  lemma {:induction false} WithAppExactly(items: seq<Object>, app: JsValue, t: Object)
    ensures t in WithApp(items, app) <==> t in items && Prop(t, "app") == app
  {
    if items != [] {
      WithAppExactly(items[1..], app, t);
      assert items == [items[0]] + items[1..];
    }
  }

  /** The filter keeps the order: it distributes over concatenation. */
  lemma {:induction false} WithAppConcat(a: seq<Object>, b: seq<Object>, app: JsValue)
    ensures WithApp(a + b, app) == WithApp(a, app) + WithApp(b, app)
  {
    if a == [] {
      assert a + b == b;
    } else {
      var head := if Prop(a[0], "app") == app then [a[0]] else [];
      assert (a + b)[0] == a[0];
      assert (a + b)[1..] == a[1..] + b;
      WithAppConcat(a[1..], b, app);
      calc {
        WithApp(a + b, app);
        head + WithApp(a[1..] + b, app);
        head + (WithApp(a[1..], app) + WithApp(b, app));
        (head + WithApp(a[1..], app)) + WithApp(b, app);
        WithApp(a, app) + WithApp(b, app);
      }
    }
  }

  /** No template is both an e-mail and a webhook template. */
  lemma TemplateListsDisjoint(items: seq<Object>, t: Object)
    ensures !(t in WithApp(items, AppTypeEMAIL) && t in WithApp(items, AppTypeWEBHOOK))
  {
    WithAppExactly(items, AppTypeEMAIL, t);
    WithAppExactly(items, AppTypeWEBHOOK, t);
  }

  /** The query of each lookup list: the first 100 enabled entries. */
  const LookupParams: Object := map["page" := Num(1), "pageSize" := Num(100), "status" := StatusENABLED]

  /** The three lookup requests, in the order they are issued. */
  function LookupRequests(): (rs: seq<Request>)
    ensures |rs| == 3
    ensures forall i :: 0 <= i < 3 ==> rs[i].verb == GET && rs[i].params == LookupParams
  {
    [EmailList(LookupParams), WebhookList(LookupParams), TemplateList(LookupParams)]
  }

  // ---------------------------------------------------------------------------
  // The send forms

  datatype Mode = Direct | Template

  /** The e-mail form's values. */
  datatype EmailFormValues = EmailFormValues(uid: string, subject: string, body: string, to: string,
                                             templateUID: string, jsonData: string)

  /** The webhook form's values. */
  datatype WebhookFormValues = WebhookFormValues(uid: string, data: string, templateUID: string, jsonData: string)

  /** The e-mail send call for the chosen mode. */
  function EmailSendRequest(mode: Mode, v: EmailFormValues): Request {
    if mode == Direct then
      SendEmail(v.uid, SendEmailData(v.subject, v.body, Recipients(v.to), None, Some("text/html"), None))
    else SendEmailWithTemplate(v.uid, SendTemplateData(v.templateUID, v.jsonData))
  }

  /** The webhook send call for the chosen mode. */
  function WebhookSendRequest(mode: Mode, v: WebhookFormValues): Request {
    if mode == Direct then SendWebhook(v.uid, SendWebhookData(v.data))
    else SendWebhookWithTemplate(v.uid, SendTemplateData(v.templateUID, v.jsonData))
  }

  /** A direct e-mail carries the configuration uid, the subject, the body,
      the recipient list and the HTML content type, and nothing else. */
  lemma DirectEmailBody(v: EmailFormValues)
    ensures var b := EmailSendRequest(Direct, v).body.value;
      && b.Keys == {"uid", "subject", "body", "to", "contentType"}
      && b["uid"] == Str(v.uid) && b["subject"] == Str(v.subject) && b["body"] == Str(v.body)
      && b["to"] == StrArray(Recipients(v.to)) && b["contentType"] == Str("text/html")
  {
  }

  /** In template mode both forms send only the configuration uid, the
      template uid and the JSON data. */
  lemma TemplateModeBodies(e: EmailFormValues, w: WebhookFormValues)
    ensures var b := EmailSendRequest(Template, e).body.value;
      b == map["uid" := Str(e.uid), "templateUID" := Str(e.templateUID), "jsonData" := Str(e.jsonData)]
    ensures var b := WebhookSendRequest(Template, w).body.value;
      b == map["uid" := Str(w.uid), "templateUID" := Str(w.templateUID), "jsonData" := Str(w.jsonData)]
  {
  }

  /** A direct webhook sends only the configuration uid and the data. */
  lemma DirectWebhookBody(w: WebhookFormValues)
    ensures WebhookSendRequest(Direct, w).body.value == map["uid" := Str(w.uid), "data" := Str(w.data)]
  {
  }

  /** The send page. */
  class SenderPage {
    var emailConfigs: seq<Object>
    var webhookConfigs: seq<Object>
    var emailTemplates: seq<Object>
    var webhookTemplates: seq<Object>
    var emailMode: Mode
    var webhookMode: Mode
    var loading: bool
    const emailForm: Form
    const webhookForm: Form

    constructor (emailForm: Form, webhookForm: Form)
      ensures this.emailForm == emailForm && this.webhookForm == webhookForm
      ensures emailConfigs == [] && webhookConfigs == [] && emailTemplates == [] && webhookTemplates == []
      ensures emailMode == Direct && webhookMode == Direct && !loading
    {
      this.emailForm := emailForm;
      this.webhookForm := webhookForm;
      emailConfigs := [];
      webhookConfigs := [];
      emailTemplates := [];
      webhookTemplates := [];
      emailMode := Direct;
      webhookMode := Direct;
      loading := false;
    }

    /** The e-mail tab's mode buttons. */
    method SetEmailMode(mode: Mode)
      modifies this
      ensures emailMode == mode && webhookMode == old(webhookMode) && loading == old(loading)
      ensures emailTemplates == old(emailTemplates) && webhookTemplates == old(webhookTemplates)
      ensures emailConfigs == old(emailConfigs) && webhookConfigs == old(webhookConfigs)
    {
      emailMode := mode;
    }

    /** The webhook tab's mode buttons. */
    method SetWebhookMode(mode: Mode)
      modifies this
      ensures webhookMode == mode && emailMode == old(emailMode) && loading == old(loading)
      ensures emailTemplates == old(emailTemplates) && webhookTemplates == old(webhookTemplates)
      ensures emailConfigs == old(emailConfigs) && webhookConfigs == old(webhookConfigs)
    {
      webhookMode := mode;
    }

    /** `loadConfigs()`: the three lookups, awaited together. When they all
        succeed the lists are replaced and the templates split by app; when
        one fails nothing changes. */
    method LoadConfigs(loaded: Outcome<(Page<Object>, Page<Object>, Page<Object>)>) returns (requests: seq<Request>)
      modifies this
      ensures requests == LookupRequests()
      ensures loaded.Success? ==>
        && emailConfigs == loaded.data.0.items && webhookConfigs == loaded.data.1.items
        && emailTemplates == WithApp(loaded.data.2.items, AppTypeEMAIL)
        && webhookTemplates == WithApp(loaded.data.2.items, AppTypeWEBHOOK)
      ensures loaded.Failure? ==>
        && emailConfigs == old(emailConfigs) && webhookConfigs == old(webhookConfigs)
        && emailTemplates == old(emailTemplates) && webhookTemplates == old(webhookTemplates)
      ensures emailMode == old(emailMode) && webhookMode == old(webhookMode) && loading == old(loading)
    {
      requests := [EmailList(LookupParams), WebhookList(LookupParams), TemplateList(LookupParams)];
      if loaded.Success? {
        var (emailRes, webhookRes, templateRes) := loaded.data;
        emailConfigs := emailRes.items;
        webhookConfigs := webhookRes.items;
        emailTemplates := WithApp(templateRes.items, AppTypeEMAIL);
        webhookTemplates := WithApp(templateRes.items, AppTypeWEBHOOK);
      }
    }

    /** `handleEmailSend()`: validate, send for the current mode, and reset
        the form after a successful send. */
    method HandleEmailSend(validated: Outcome<EmailFormValues>, sent: Outcome<JsValue>) returns (request: Option<Request>)
      modifies this, emailForm
      ensures request == if validated.Success? then Some(EmailSendRequest(emailMode, validated.data)) else None
      ensures request.Some? && sent.Success? ==> emailForm.values == emailForm.initialValues && emailForm.errors == map[]
      ensures !(request.Some? && sent.Success?) ==> emailForm.values == old(emailForm.values) && emailForm.errors == old(emailForm.errors)
      ensures !loading && emailMode == old(emailMode) && webhookMode == old(webhookMode)
      ensures emailTemplates == old(emailTemplates) && webhookTemplates == old(webhookTemplates)
      ensures emailConfigs == old(emailConfigs) && webhookConfigs == old(webhookConfigs)
    {
      loading := true;
      request := None;
      if validated.Success? {
        var values := validated.data;
        if emailMode == Direct {
          var data := SendEmailData(values.subject, values.body, Recipients(values.to), None, Some("text/html"), None);
          request := Some(SendEmail(values.uid, data));
        } else {
          request := Some(SendEmailWithTemplate(values.uid, SendTemplateData(values.templateUID, values.jsonData)));
        }
        if sent.Success? {
          emailForm.ResetFields();
        }
      }
      loading := false;
    }

    /** `handleWebhookSend()`. */
    method HandleWebhookSend(validated: Outcome<WebhookFormValues>, sent: Outcome<JsValue>) returns (request: Option<Request>)
      modifies this, webhookForm
      ensures request == if validated.Success? then Some(WebhookSendRequest(webhookMode, validated.data)) else None
      ensures request.Some? && sent.Success? ==> webhookForm.values == webhookForm.initialValues && webhookForm.errors == map[]
      ensures !(request.Some? && sent.Success?) ==> webhookForm.values == old(webhookForm.values) && webhookForm.errors == old(webhookForm.errors)
      ensures !loading && emailMode == old(emailMode) && webhookMode == old(webhookMode)
      ensures emailTemplates == old(emailTemplates) && webhookTemplates == old(webhookTemplates)
      ensures emailConfigs == old(emailConfigs) && webhookConfigs == old(webhookConfigs)
    {
      loading := true;
      request := None;
      if validated.Success? {
        var values := validated.data;
        if webhookMode == Direct {
          request := Some(SendWebhook(values.uid, SendWebhookData(values.data)));
        } else {
          request := Some(SendWebhookWithTemplate(values.uid, SendTemplateData(values.templateUID, values.jsonData)));
        }
        if sent.Success? {
          webhookForm.ResetFields();
        }
      }
      loading := false;
    }
  }
}
