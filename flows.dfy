/** `FlowsBase` (sitegate/flows_base.py), the base of sign in and sign up
    flows: template-name resolution, flow arguments, the form a request asks
    for, and the per-request registry of flow forms that the template tags
    read.  Requests and flows are objects; the functions below are what their
    methods compute, and the decorators compose them. */
module Flows {
  import opened Common
  import opened Forms
  import opened Utils
  import Models

  datatype FlowType = Signin | Signup

  /** `flow_type`. */
  function TypeName(t: FlowType): string
  {
    match t
    case Signin => "signin"
    case Signup => "signup"
  }

  /** The key of a flow type's forms in `request.sitegate`. */
  function FormsKey(t: FlowType): string
  {
    TypeName(t) + "_forms"
  }

  /** The POST key (and hidden field) that says which flow a form belongs to. */
  function FlowKey(t: FlowType): string
  {
    TypeName(t) + "_flow"
  }

  /** A flow argument, as given to the decorators: a flag, a text (a template
      name, a redirect target), the `widget_attrs` mapping, or a flow class. */
  datatype Arg = Flag(flag: bool) | Text(text: string) | Attrs(attrs: ODict<AttrValue>) | FlowArg(cls: FlowClass)

  /** A flow class: its name, its `flow_type`, its `form` attribute (absent
      for an abstract flow), its other class attributes (such as
      `validate_email_domain`), and its `enabled` and `disabled_text`. */
  datatype FlowClass = FlowClass(name: string, flowType: FlowType, form: Option<FormClass>,
                                 attrs: ODict<Arg>, enabled: Option<bool>, disabledText: Option<string>)

  /** Python truthiness of an optional argument. */
  predicate ArgTruthy(a: Option<Arg>)
  {
    match a
    case None => false
    case Some(Flag(b)) => b
    case Some(Text(t)) => t != ""
    case Some(Attrs(m)) => |m| > 0
    case Some(FlowArg(_)) => true
  }

  /** `get_flow_name`: the class name itself, e.g. `ModernSignup`. */
  function GetFlowName(cls: FlowClass): string
  {
    cls.name
  }

  /** `get_arg_or_attr(name, default)`. */
  function GetArgOrAttr(flowArgs: ODict<Arg>, cls: FlowClass, name: string, default: Option<Arg>): Option<Arg>
  {
    if name in Keys(flowArgs) then Get(flowArgs, name)
    else if name in Keys(cls.attrs) then Get(cls.attrs, name)
    else default
  }

  /** A flow argument wins over the class attribute and the default ... */
  lemma ArgOverridesAttr(flowArgs: ODict<Arg>, cls: FlowClass, name: string, v: Arg, default: Option<Arg>)
    ensures GetArgOrAttr(Put(flowArgs, name, v), cls, name, default) == Some(v)
  {
    PutGet(flowArgs, name, v);
    PutKeys(flowArgs, name, v);
  }

  /** ... and without one the class attribute wins over the default, whatever
      the other arguments are. */
  lemma AttrOverridesDefault(flowArgs: ODict<Arg>, cls: FlowClass, name: string, default: Option<Arg>)
    requires name !in Keys(flowArgs)
    ensures GetArgOrAttr(flowArgs, cls, name, default) == GetArgOrAttr([], cls, name, default)
    ensures name in Keys(cls.attrs) ==> GetArgOrAttr(flowArgs, cls, name, default) == Get(cls.attrs, name)
    ensures name !in Keys(cls.attrs) ==> GetArgOrAttr(flowArgs, cls, name, default) == default
  {
  }

  // ---------------------------------------------------------------------
  // Template names

  /** Python's `template % value` with one value, for the directives a
      template name can hold: `%s` takes the value, `%%` is a percent sign.
      Any other directive, or a `%s` after the value is used, is the error
      Python raises (`None`); the flag says whether the value was used. */
  function FormatFrom(t: string, v: string, used: bool): Option<(string, bool)>
    decreases |t|
  {
    if |t| == 0 then Some(("", used))
    else if t[0] != '%' then
      match FormatFrom(t[1..], v, used)
      case None => None
      case Some((s, u)) => Some(([t[0]] + s, u))
    else if |t| >= 2 && t[1] == '%' then
      match FormatFrom(t[2..], v, used)
      case None => None
      case Some((s, u)) => Some(("%" + s, u))
    else if |t| >= 2 && t[1] == 's' && !used then
      match FormatFrom(t[2..], v, true)
      case None => None
      case Some((s, u)) => Some((v + s, u))
    else None
  }

  /** `t % v`: an error too when the value is not used. */
  function Format(t: string, v: string): Option<string>
  {
    match FormatFrom(t, v, false)
    case Some((s, true)) => Some(s)
    case _ => None
  }

  /** Text without `%` is copied through. */
  lemma {:induction false} FormatFromPrefix(p: string, rest: string, v: string, used: bool)
    requires '%' !in p
    ensures FormatFrom(p + rest, v, used) ==
      match FormatFrom(rest, v, used)
      case None => None
      case Some((s, u)) => Some((p + s, u))
  {
    if |p| > 0 {
      assert (p + rest)[0] == p[0] && (p + rest)[1..] == p[1..] + rest;
      FormatFromPrefix(p[1..], rest, v, used);
      match FormatFrom(rest, v, used)
      case None =>
      case Some((s, u)) =>
        assert [p[0]] + (p[1..] + s) == p + s;
    } else {
      assert p + rest == rest;
      match FormatFrom(rest, v, used)
      case None =>
      case Some((s, u)) =>
        assert p + s == s;
    }
  }

  /** A text with exactly one `%s` and no other `%` is formatted by putting
      the value in its place. */
  lemma FormatOne(p: string, q: string, v: string)
    requires '%' !in p && '%' !in q
    ensures Format(p + "%s" + q, v) == Some(p + v + q)
  {
    FormatFromPrefix(q, "", v, true);
    assert q + "" == q;
    assert FormatFrom(q, v, true) == Some((q, true));
    var t := "%s" + q;
    assert t[0] == '%' && t[1] == 's' && t[2..] == q;
    assert FormatFrom(t, v, false) == Some((v + q, true));
    FormatFromPrefix(p, t, v, false);
    assert p + "%s" + q == p + t;
    assert p + (v + q) == p + v + q;
  }

  const DefaultFormTemplate := "form_as_p"

  /** `get_template_name`: `None` means the built-in `form_as_p`; a name
      without `.html` is a shortcut for `sitegate/%s/<name>.html`; a `%s` is
      filled with the flow type.  `None` is the formatting error. */
  function GetTemplateName(t: FlowType, name: Option<string>): Option<string>
  {
    var n := if name.None? then DefaultFormTemplate else name.value;
    var path := if Contains(n, ".html") then n else "sitegate/%s/" + n + ".html";
    if Contains(path, "%s") then Format(path, TypeName(t)) else Some(path)
  }

  /** A shortcut name (no `.` and no `%`) names the built-in template of the
      flow type. */
  lemma TemplateShortcut(t: FlowType, n: string)
    requires '.' !in n && '%' !in n
    ensures GetTemplateName(t, Some(n)) == Some("sitegate/" + TypeName(t) + "/" + n + ".html")
  {
    NotContainsFirst(n, ".html");
    var path := "sitegate/%s/" + n + ".html";
    assert path == "sitegate/" + "%s" + ("/" + n + ".html");
    assert OccursAt(path, "%s", 9);
    FormatOne("sitegate/", "/" + n + ".html", TypeName(t));
    assert "sitegate/" + TypeName(t) + ("/" + n + ".html") == "sitegate/" + TypeName(t) + "/" + n + ".html";
  }

  /** With no template given, a sign in flow renders
      `sitegate/signin/form_as_p.html` and a sign up flow
      `sitegate/signup/form_as_p.html`. */
  lemma TemplateDefault(t: FlowType)
    ensures GetTemplateName(t, None) == Some("sitegate/" + TypeName(t) + "/" + DefaultFormTemplate + ".html")
  {
    var n := DefaultFormTemplate;
    assert '.' !in n && '%' !in n;
    TemplateShortcut(t, n);
  }

  /** A full template path without `%` is used as given. */
  lemma TemplatePath(t: FlowType, n: string)
    requires Contains(n, ".html") && '%' !in n
    ensures GetTemplateName(t, Some(n)) == Some(n)
  {
    NotContainsFirst(n, "%s");
  }

  /** A full template path with one `%s` gets the flow type in its place. */
  lemma TemplatePlaceholder(t: FlowType, p: string, q: string)
    requires '%' !in p && '%' !in q && Contains(p + "%s" + q, ".html")
    ensures GetTemplateName(t, Some(p + "%s" + q)) == Some(p + TypeName(t) + q)
  {
    assert OccursAt(p + "%s" + q, "%s", |p|);
    FormatOne(p, q, TypeName(t));
  }

  // ---------------------------------------------------------------------
  // The forms of a request

  /** `request.sitegate`: the forms of each flow type, by flow name, in the
      order the flows registered them. */
  type Sitegate = ODict<ODict<Form>>

  /** What a view gives back: the view's own response (it is handed the
      positional and keyword arguments of the call), a redirect, or an
      exception that escapes. */
  datatype Response = Rendered(view: string, args: seq<string>, kwargs: ODict<string>)
                    | RedirectTo(url: string)
                    | Failure(error: string)

  /** `update_request`: the form is stored under the flow name in the flow
      type's ordered map, both created when absent. */
  function Registered(sg: Option<Sitegate>, t: FlowType, name: string, form: Form): Sitegate
  {
    var d := if sg.Some? then sg.value else [];
    var forms := match Get(d, FormsKey(t)) case Some(f) => f case None => [];
    Put(d, FormsKey(t), Put(forms, name, form))
  }

  /** The forms of the same flow type as they were before (empty when absent). */
  function FormsOf(sg: Option<Sitegate>, t: FlowType): ODict<Form>
  {
    if sg.None? then [] else match Get(sg.value, FormsKey(t)) case Some(f) => f case None => []
  }

  /** After registering, the flow's form is under its name; the flow type's
      names keep their order, a new name going last; the other flow type's
      forms and every other key are as they were. */
  lemma RegisteredSpec(sg: Option<Sitegate>, t: FlowType, name: string, form: Form, k: string)
    ensures Get(Registered(sg, t, name, form), FormsKey(t)) == Some(Put(FormsOf(sg, t), name, form))
    ensures Get(Put(FormsOf(sg, t), name, form), name) == Some(form)
    ensures Keys(Put(FormsOf(sg, t), name, form)) ==
      if name in Keys(FormsOf(sg, t)) then Keys(FormsOf(sg, t)) else Keys(FormsOf(sg, t)) + [name]
    ensures k != FormsKey(t) ==>
      Get(Registered(sg, t, name, form), k) == if sg.None? then None else Get(sg.value, k)
  {
    var d := if sg.Some? then sg.value else [];
    var forms := FormsOf(sg, t);
    PutGet(d, FormsKey(t), Put(forms, name, form));
    PutGet(forms, name, form);
    PutKeys(forms, name, form);
    if k != FormsKey(t) {
      PutOther(d, FormsKey(t), Put(forms, name, form), k);
    }
  }

  lemma FormsKeysDiffer()
    ensures FormsKey(Signin) != FormsKey(Signup)
  {
    assert FormsKey(Signin)[4] != FormsKey(Signup)[4];
  }

  /** A request: its method, its POST data, whether its user is signed in, and
      the `sitegate` (and legacy `sitesignup`) attributes the flows attach to it
      (`None` while absent). */
  class Request {
    const isPost: bool
    const post: ODict<string>
    const authenticated: bool
    var sitegate: Option<Sitegate>
    var sitesignup: Option<ODict<Form>>

    constructor (isPost: bool, post: ODict<string>, authenticated: bool)
      ensures this.isPost == isPost && this.post == post && this.authenticated == authenticated
      ensures sitegate.None? && sitesignup.None?
    {
      this.isPost := isPost;
      this.post := post;
      this.authenticated := authenticated;
      sitegate := None;
      sitesignup := None;
    }
  }

  /** The form belongs to the request exactly when the request is a POST
      whose `<flow_type>_flow` value is non-empty and is the flow name. */
  predicate PostedTo(isPost: bool, post: ODict<string>, t: FlowType, name: string)
  {
    isPost && Get(post, FlowKey(t)).Some? && Get(post, FlowKey(t)).value != "" &&
    Get(post, FlowKey(t)).value == name
  }

  /** The hidden field that identifies the flow. */
  function FlowField(name: string): Field
  {
    Field("", true, HiddenInput, name, [])
  }

  /** The `template` and `widget_attrs` arguments, when given, are a text and a mapping. */
  predicate ArgsTyped(flowArgs: ODict<Arg>)
  {
    (Get(flowArgs, "template").Some? ==> Get(flowArgs, "template").value.Text?) &&
    (Get(flowArgs, "widget_attrs").Some? ==>
      Get(flowArgs, "widget_attrs").value.Attrs? && DistinctKeys(Get(flowArgs, "widget_attrs").value.attrs))
  }

  function TemplateArg(flowArgs: ODict<Arg>): Option<string>
    requires ArgsTyped(flowArgs)
  {
    match Get(flowArgs, "template") case Some(a) => Some(a.text) case None => None
  }

  function WidgetAttrsArg(flowArgs: ODict<Arg>): Option<ODict<AttrValue>>
    requires ArgsTyped(flowArgs)
  {
    match Get(flowArgs, "widget_attrs") case Some(a) => Some(a.attrs) case None => None
  }

  /** `init_form`: the form class bound to the data, with its template and,
      when given, the widget attributes. */
  function InitForm(c: FormClass, data: Option<ODict<string>>, widgetAttrs: Option<ODict<AttrValue>>,
                    template: string): Form
  {
    var f := NewForm(c, data).(template := template);
    if widgetAttrs.Some? then f.(fields := WithWidgetAttrs(f.fields, widgetAttrs.value)) else f
  }

  /** `get_requested_form`: bound to the POST data only when the POST names
      this flow; it always carries the hidden flow field set to the flow
      name, the resolved template and the flow's `enabled`/`disabled_text`.
      `None` is the error of a template name that cannot be formatted. */
  function RequestedForm(cls: FlowClass, flowArgs: ODict<Arg>, isPost: bool, post: ODict<string>): (r: Option<Form>)
    requires cls.form.Some? && ArgsTyped(flowArgs)
    ensures r.None? <==> GetTemplateName(cls.flowType, TemplateArg(flowArgs)).None?
    ensures r.Some? ==> r.value.cls == cls.form.value
    ensures r.Some? ==> (r.value.data.Some? <==> PostedTo(isPost, post, cls.flowType, cls.name))
    ensures r.Some? && r.value.data.Some? ==> r.value.data.value == post
    ensures r.Some? ==> Get(r.value.fields, FlowKey(cls.flowType)) == Some(FlowField(cls.name))
    ensures r.Some? ==> r.value.template == GetTemplateName(cls.flowType, TemplateArg(flowArgs)).value
    ensures r.Some? ==> r.value.enabled == cls.enabled && r.value.disabledText == cls.disabledText
  {
    var data := if PostedTo(isPost, post, cls.flowType, cls.name) then Some(post) else None;
    match GetTemplateName(cls.flowType, TemplateArg(flowArgs))
    case None => None
    case Some(template) =>
      var f := InitForm(cls.form.value, data, WidgetAttrsArg(flowArgs), template);
      PutGet(f.fields, FlowKey(cls.flowType), FlowField(cls.name));
      Some(f.(fields := Put(f.fields, FlowKey(cls.flowType), FlowField(cls.name)),
              enabled := cls.enabled, disabledText := cls.disabledText))
  }

  /** What `respond_for` does before calling the view: answer at once, or
      carry on with the request's forms updated. */
  datatype Step = Answer(response: Response) | Proceed(sitegate: Sitegate)

  /** `respond_for`: a bound, valid form whose `handle_form_valid` gives a
      response answers with it; otherwise the form is registered and the view
      is called.  `valid` is Django's form validation of a bound form. */
  function RespondStep(cls: FlowClass, flowArgs: ODict<Arg>, isPost: bool, post: ODict<string>,
                       sg: Option<Sitegate>, valid: Form -> bool, handle: Form -> Option<Response>): (s: Step)
    requires cls.form.Some? && ArgsTyped(flowArgs)
  {
    match RequestedForm(cls, flowArgs, isPost, post)
    case None => Answer(Failure("TypeError"))
    case Some(form) =>
      if form.data.Some? && valid(form) && handle(form).Some? then Answer(handle(form).value)
      else Proceed(Registered(sg, cls.flowType, cls.name, form))
  }

  /** `RespondStep` by cases of the requested form. */
  lemma RespondStepOf(cls: FlowClass, flowArgs: ODict<Arg>, isPost: bool, post: ODict<string>,
                      sg: Option<Sitegate>, valid: Form -> bool, handle: Form -> Option<Response>, f: Option<Form>)
    requires cls.form.Some? && ArgsTyped(flowArgs) && f == RequestedForm(cls, flowArgs, isPost, post)
    ensures f.None? ==> RespondStep(cls, flowArgs, isPost, post, sg, valid, handle) == Answer(Failure("TypeError"))
    ensures f.Some? && f.value.data.Some? && valid(f.value) && handle(f.value).Some? ==>
      RespondStep(cls, flowArgs, isPost, post, sg, valid, handle) == Answer(handle(f.value).value)
    ensures f.Some? && !(f.value.data.Some? && valid(f.value) && handle(f.value).Some?) ==>
      RespondStep(cls, flowArgs, isPost, post, sg, valid, handle) == Proceed(Registered(sg, cls.flowType, cls.name, f.value))
  {
  }

  /** The view is skipped exactly when the template name is broken or the
      request posted a valid form that `handle_form_valid` answers; when it is
      called, the requested form is registered under the flow name (see
      `RegisteredSpec`). */
  lemma RespondStepSpec(cls: FlowClass, flowArgs: ODict<Arg>, isPost: bool, post: ODict<string>,
                        sg: Option<Sitegate>, valid: Form -> bool, handle: Form -> Option<Response>)
    requires cls.form.Some? && ArgsTyped(flowArgs)
    ensures var s := RespondStep(cls, flowArgs, isPost, post, sg, valid, handle);
      var f := RequestedForm(cls, flowArgs, isPost, post);
      (s.Answer? <==> f.None? || (PostedTo(isPost, post, cls.flowType, cls.name) && valid(f.value) && handle(f.value).Some?)) &&
      (s.Proceed? ==> f.Some? && s.sitegate == Registered(sg, cls.flowType, cls.name, f.value))
  {
  }

  /** `login_generic`: the user is logged in (its id returned) only when
      authentication gives a user and that user is active. */
  function LoginGeneric(authenticate: (string, string) -> Option<Models.User>, username: string, password: string)
    : (loggedIn: Option<nat>)
    ensures loggedIn.Some? <==> authenticate(username, password).Some? && authenticate(username, password).value.isActive
    ensures loggedIn.Some? ==> loggedIn.value == authenticate(username, password).value.id
  {
    match authenticate(username, password)
    case Some(u) => if u.isActive then Some(u.id) else None
    case None => None
  }

  /** A flow instance with its `flow_args` (and, for the e-mail verifying
      sign up flows, whether a `schedule_email` function was installed). */
  class Flow {
    const cls: FlowClass
    var flowArgs: ODict<Arg>
    var scheduleEmail: bool

    constructor (cls: FlowClass, kwargs: ODict<Arg>)
      requires cls.form.Some?
      ensures this.cls == cls && flowArgs == kwargs && !scheduleEmail
    {
      this.cls := cls;
      flowArgs := kwargs;
      scheduleEmail := false;
    }

    /** `get_arg_or_attr` on this instance. */
    function ArgOrAttr(name: string, default: Option<Arg>): Option<Arg>
      reads this
    {
      GetArgOrAttr(flowArgs, cls, name, default)
    }

    /** `init_form`, applying the widget attributes field by field. */
    method InitFormFor(data: Option<ODict<string>>, widgetAttrs: Option<ODict<AttrValue>>, template: string)
      returns (form: Form)
      requires cls.form.Some?
      requires widgetAttrs.Some? ==> DistinctKeys(widgetAttrs.value)
      ensures form == InitForm(cls.form.value, data, widgetAttrs, template)
    {
      form := NewForm(cls.form.value, data).(template := template);
      if widgetAttrs.Some? {
        var fields := ApplyAttrsToFormWidgets(form.fields, widgetAttrs.value);
        form := form.(fields := fields);
      }
    }

    /** `get_requested_form(request)`. */
    method GetRequestedForm(req: Request) returns (form: Option<Form>)
      requires cls.form.Some? && ArgsTyped(flowArgs)
      ensures form == RequestedForm(cls, flowArgs, req.isPost, req.post)
    {
      var data := None;
      var key := FlowKey(cls.flowType);
      if req.isPost && Get(req.post, key).Some? && Get(req.post, key).value != "" && Get(req.post, key).value == cls.name {
        data := Some(req.post);
      }
      var template := GetTemplateName(cls.flowType, TemplateArg(flowArgs));
      if template.None? {
        return None;
      }
      var f := InitFormFor(data, WidgetAttrsArg(flowArgs), template.value);
      f := f.(fields := Put(f.fields, key, FlowField(cls.name)));
      form := Some(f.(enabled := cls.enabled, disabledText := cls.disabledText));
    }

    /** `update_request(request, form)`. */
    method UpdateRequest(req: Request, form: Form)
      modifies req`sitegate
      ensures req.sitegate == Some(Registered(old(req.sitegate), cls.flowType, cls.name, form))
    {
      var d := if req.sitegate.Some? then req.sitegate.value else [];
      var forms := match Get(d, FormsKey(cls.flowType)) case Some(f) => f case None => [];
      forms := Put(forms, cls.name, form);
      req.sitegate := Some(Put(d, FormsKey(cls.flowType), forms));
    }

    /** `respond_for(view, args, kwargs)`: `view` is what the wrapped view
        responds given the request's forms. */
    method RespondFor(req: Request, view: Sitegate -> Response, valid: Form -> bool,
                      handle: Form -> Option<Response>) returns (resp: Response)
      requires cls.form.Some? && ArgsTyped(flowArgs)
      modifies req`sitegate
      ensures var step := RespondStep(cls, flowArgs, req.isPost, req.post, old(req.sitegate), valid, handle);
        step.Answer? ==> resp == step.response && req.sitegate == old(req.sitegate)
      ensures var step := RespondStep(cls, flowArgs, req.isPost, req.post, old(req.sitegate), valid, handle);
        step.Proceed? ==> req.sitegate == Some(step.sitegate) && resp == view(step.sitegate)
    {
      var form := GetRequestedForm(req);
      RespondStepOf(cls, flowArgs, req.isPost, req.post, req.sitegate, valid, handle, form);
      if form.None? {
        return Failure("TypeError");
      }
      if form.value.data.Some? && valid(form.value) {
        var result := handle(form.value);
        if result.Some? {
          return result.value;
        }
      }
      UpdateRequest(req, form.value);
      resp := view(req.sitegate.value);
    }
  }

  /** `FlowsBase.__init__`: a class without a form raises
      `NotImplementedError` (`None`); otherwise the instance keeps the keyword
      arguments as its `flow_args`. */
  method NewFlow(cls: FlowClass, kwargs: ODict<Arg>) returns (flow: Option<Flow>)
    ensures flow.None? <==> cls.form.None?
    ensures flow.Some? ==> fresh(flow.value) && flow.value.cls == cls && flow.value.flowArgs == kwargs
  {
    if cls.form.None? {
      return None;
    }
    var f := new Flow(cls, kwargs);
    flow := Some(f);
  }
}
