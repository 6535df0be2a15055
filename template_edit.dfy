/** The template edit dialog of src/pages/templates/modal-edit.tsx: the two
    enum mappings between send types and template apps, the conversion of a
    loaded template into form data, and the OK handler, which validates the
    content, creates or updates the template and resets the form. */
module TemplateEdit {
  import opened Js
  import opened Http
  import opened ApiEnum
  import opened ApiTypes
  import opened FormErrors
  import TemplateApi

  // ---------------------------------------------------------------------------
  // The enum mappings

  /** `mapAlarmSendTypeToTemplateAPP`. */
  function ToApp(s: AlarmSendType): TemplateApp {
    match s
    case AlarmSendTypeEmail => TEMPLATE_APP_EMAIL
    case AlarmSendTypeDingTalk => TEMPLATE_APP_WEBHOOK_DINGTALK
    case AlarmSendTypeWeChat => TEMPLATE_APP_WEBHOOK_WECHAT
    case AlarmSendTypeFeiShu => TEMPLATE_APP_WEBHOOK_FEISHU
    case AlarmSendTypeCustom => TEMPLATE_APP_WEBHOOK_OTHER
    case _ => TEMPLATE_APP_EMAIL
  }

  /** `mapTemplateAPPToAlarmSendType`. */
  function ToSendType(a: TemplateApp): AlarmSendType {
    match a
    case TEMPLATE_APP_EMAIL => AlarmSendTypeEmail
    case TEMPLATE_APP_WEBHOOK_DINGTALK => AlarmSendTypeDingTalk
    case TEMPLATE_APP_WEBHOOK_WECHAT => AlarmSendTypeWeChat
    case TEMPLATE_APP_WEBHOOK_FEISHU => AlarmSendTypeFeiShu
    case TEMPLATE_APP_WEBHOOK_OTHER => AlarmSendTypeCustom
    case _ => AlarmSendTypeEmail
  }

  /** The five named send types. */
  predicate NamedSendType(s: AlarmSendType) {
    s != StrategyTypeUnknown
  }

  /** The five named apps. */
  predicate NamedApp(a: TemplateApp) {
    !a.UnlistedTemplateApp?
  }

  /** The mappings are inverse bijections between the five named members of
      each enum; the unknown send type becomes the e-mail app and an unlisted
      app the e-mail send type. */
  lemma MappingsAreInverse(s: AlarmSendType, a: TemplateApp)
    ensures NamedSendType(s) ==> NamedApp(ToApp(s)) && ToSendType(ToApp(s)) == s
    ensures NamedApp(a) ==> NamedSendType(ToSendType(a)) && ToApp(ToSendType(a)) == a
    ensures !NamedSendType(s) ==> ToApp(s) == TEMPLATE_APP_EMAIL
    ensures !NamedApp(a) ==> ToSendType(a) == AlarmSendTypeEmail
  {
  }

  /** So neither mapping sends two named members to the same place. */
  lemma MappingsInjective(s: AlarmSendType, t: AlarmSendType, a: TemplateApp, b: TemplateApp)
    requires NamedSendType(s) && NamedSendType(t) && NamedApp(a) && NamedApp(b)
    ensures ToApp(s) == ToApp(t) ==> s == t
    ensures ToSendType(a) == ToSendType(b) ==> a == b
  {
    MappingsAreInverse(s, a);
    MappingsAreInverse(t, b);
  }

  // ---------------------------------------------------------------------------
  // Form data

  /** `TemplateFormData` without the two optional fields, which the handler
      does not read. */
  datatype TemplateFormData = TemplateFormData(name: string, sendType: AlarmSendType, status: Status, content: string) {
    /** The form values the data sets. */
    function Fields(): (o: Object)
      ensures o.Keys == {"name", "sendType", "status", "content"}
      ensures o["content"] == Str(content) && o["name"] == Str(name)
    {
      map["name" := Str(name), "sendType" := AlarmSendTypeValue(sendType),
          "status" := StatusValue(status), "content" := Str(content)]
    }
  }

  /** `getTemplateDetail`'s conversion of a loaded template. */
  function DetailToForm(item: TemplateItem): (f: TemplateFormData)
    ensures f.status == StatusEnable <==> item.status == ENABLED
    ensures f.status != StatusAll
    ensures f.name == item.name && f.content == item.jsonData
    ensures NamedApp(item.app) ==> ToApp(f.sendType) == item.app
  {
    MappingsAreInverse(StrategyTypeUnknown, item.app);
    TemplateFormData(item.name, ToSendType(item.app), if item.status == ENABLED then StatusEnable else StatusDisable, item.jsonData)
  }

  /** Loading the detail of `uid` and, once it arrives, filling the form. A
      failed load leaves the form alone. */
  method LoadDetail(form: Form, uid: string, loaded: Outcome<TemplateItem>) returns (request: Request)
    modifies form
    ensures request == TemplateApi.Get(uid)
    ensures loaded.Success? ==> form.values == old(form.values) + DetailToForm(loaded.data).Fields()
    ensures loaded.Failure? ==> form.values == old(form.values)
    ensures form.errors == old(form.errors)
  {
    request := TemplateApi.Get(uid);
    if loaded.Success? {
      form.SetFieldsValue(DetailToForm(loaded.data).Fields());
    }
  }

  // ---------------------------------------------------------------------------
  // The OK handler

  /** The content is checked as JSON unless the watched send type is e-mail
      or custom; an unset watched type is checked too. */
  predicate NeedsJsonCheck(watched: Option<AlarmSendType>) {
    watched != Some(AlarmSendTypeEmail) && watched != Some(AlarmSendTypeCustom)
  }

  /** `apiData`: the name, the app of the chosen send type and the content. */
  function ApiData(values: TemplateFormData): TemplateApi.TemplateData {
    TemplateApi.TemplateData(values.name, ToApp(values.sendType), values.content)
  }

  /** The request the handler issues for validated `values`, or `None` when
      the JSON check stops it. `validJson` stands for `validateJson(..).isValid`. */
  function OkRequest(values: TemplateFormData, watched: Option<AlarmSendType>,
                     validJson: string -> bool, sendTemplateId: Option<string>): (r: Option<Request>)
    ensures r.None? <==> NeedsJsonCheck(watched) && !validJson(values.content)
  {
    if NeedsJsonCheck(watched) && !validJson(values.content) then None
    else if Present(sendTemplateId) then Some(TemplateApi.Update(sendTemplateId.value, ApiData(values)))
    else Some(TemplateApi.Create(ApiData(values)))
  }

  /** E-mail and custom content is never checked, so those always save. */
  lemma EmailAndCustomSkipCheck(values: TemplateFormData, validJson: string -> bool, id: Option<string>)
    ensures OkRequest(values, Some(AlarmSendTypeEmail), validJson, id).Some?
    ensures OkRequest(values, Some(AlarmSendTypeCustom), validJson, id).Some?
  {
  }

  /** A present id updates that template with a body naming it; otherwise the
      template is created with no uid. Either way the body carries exactly the
      name, app and content, and never a status. */
  lemma OkRequestShape(values: TemplateFormData, watched: Option<AlarmSendType>,
                       validJson: string -> bool, id: Option<string>)
    requires OkRequest(values, watched, validJson, id).Some?
    ensures var r := OkRequest(values, watched, validJson, id).value;
      && r.body.Some?
      && r.body.value - {"uid"} == ApiData(values).Fields()
      && "status" !in r.body.value
      && (Present(id) ==> r.verb == PUT && BodyIdInPath(r, "uid", "/v1/template/", "") && r.body.value["uid"] == Str(id.value))
      && (!Present(id) ==> r.verb == POST && "uid" !in r.body.value)
  {
    var r := OkRequest(values, watched, validJson, id).value;
    if Present(id) {
      assert r == TemplateApi.Update(id.value, ApiData(values));
    } else {
      assert r == TemplateApi.Create(ApiData(values));
    }
  }

  /** `handleOnOk`. `validated` is the result of `form.validateFields()`,
      `watched` the watched send type and `saved` the result of the create or
      update call. Any failure goes to `handleFormError`; success resets the
      form and closes the dialog. */
  method HandleOnOk(form: Form, validated: Outcome<TemplateFormData>, watched: Option<AlarmSendType>,
                    validJson: string -> bool, sendTemplateId: Option<string>, saved: Outcome<JsValue>)
    returns (request: Option<Request>, closed: bool)
    modifies form
    ensures request == if validated.Success? then OkRequest(validated.data, watched, validJson, sendTemplateId) else None
    ensures closed <==> request.Some? && saved.Success?
    ensures closed ==> form.values == form.initialValues && form.errors == map[]
    ensures validated.Failure? ==>
      form.values == old(form.values) && form.errors == ErrorsAfterFormError(old(form.errors), validated.error)
    ensures request.Some? && saved.Failure? ==>
      form.values == old(form.values) && form.errors == ErrorsAfterFormError(old(form.errors), saved.error)
    ensures validated.Success? && request.None? ==> form.values == old(form.values) && form.errors == old(form.errors)
  {
    closed := false;
    request := None;
    if validated.Failure? {
      var _ := HandleFormError(form, validated.error);
      return;
    }
    var values := validated.data;
    if NeedsJsonCheck(watched) {
      if !validJson(values.content) {
        return;
      }
    }
    var apiData := ApiData(values);
    if Present(sendTemplateId) {
      request := Some(TemplateApi.Update(sendTemplateId.value, apiData));
    } else {
      request := Some(TemplateApi.Create(apiData));
    }
    if saved.Failure? {
      var _ := HandleFormError(form, saved.error);
      return;
    }
    form.ResetFields();
    closed := true;
  }
}
