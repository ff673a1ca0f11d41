/** The older sign up flow base class (sitegate/signup_flows/base.py), which is
    not built on `FlowsBase`: it names flows by their lower-cased class name
    without `signup`, pops its one-shot arguments out of `flow_args`, and keeps
    its forms in `request.sitesignup['forms']`.  `add_user` and `sign_in` are
    left to subclasses; here they are an oracle and a recorded event. */
module LegacySignup {
  import opened Common
  import opened Forms
  import opened Utils
  import opened Flows

  /** The class attributes `form_template`, `redirect_to` and `auto_login`. */
  const LegacyFormTemplate := "sitesignup/form_as_p.html"
  const LegacyRedirectTo := "/"
  const LegacyAutoLogin := true

  /** The hidden field (and POST key) that identifies the flow. */
  const SignupFlowKey := "signup_flow"

  /** A legacy flow class: its name and its `form` attribute (absent for an
      abstract flow). */
  datatype LegacyFlowClass = LegacyFlowClass(name: string, form: Option<FormClass>)

  // ---------------------------------------------------------------------
  // get_flow_name

  /** `cls.__name__.lower().replace('signup', '')`. */
  function LegacyFlowName(className: string): string
  {
    RemoveAll(Lower(className), "signup")
  }

  lemma {:induction false} LowerAppend(a: string, b: string)
    ensures Lower(a + b) == Lower(a) + Lower(b)
  {
    assert forall i :: 0 <= i < |a + b| ==> (a + b)[i] == if i < |a| then a[i] else b[i - |a|];
  }

  /** A class named `<Prefix>Signup` is called by its lower-cased prefix,
      when no `signup` starts inside that prefix. */
  lemma LegacyFlowNameOfSuffixed(prefix: string)
    requires forall i :: 0 <= i < |prefix| ==> !OccursAt(Lower(prefix) + "signup", "signup", i)
    ensures LegacyFlowName(prefix + "Signup") == Lower(prefix)
  {
    LowerAppend(prefix, "Signup");
    assert Lower("Signup") == "signup";
    RemoveAllSuffix(Lower(prefix), "signup");
  }

  /** `ModernSignup` is called `modern`. */
  lemma LegacyFlowNameModern()
    ensures LegacyFlowName("Modern" + "Signup") == "modern"
  {
    var low := Lower("Modern");
    assert low == "modern";
    forall i | 0 <= i < |low| ensures !OccursAt(low + "signup", "signup", i) {
      assert (low + "signup")[i + 2] != 'g';
    }
    LegacyFlowNameOfSuffixed("Modern");
  }

  // ---------------------------------------------------------------------
  // process_request

  /** `dict.pop(k, default)`: the value (or the default) and the dictionary without `k`. */
  function Pop<V>(d: ODict<V>, k: string, default: Option<V>): (r: (Option<V>, ODict<V>))
    ensures r.0 == if k in Keys(d) then Get(d, k) else default
    ensures k !in Keys(r.1)
    ensures forall k' :: k' != k ==> Get(r.1, k') == Get(d, k')
  {
    (if k in Keys(d) then Get(d, k) else default, Remove(d, k))
  }

  /** Besides `ArgsTyped`, a `redirect_to` argument is a text. */
  predicate LegacyArgsTyped(flowArgs: ODict<Arg>)
  {
    ArgsTyped(flowArgs) && (Get(flowArgs, "redirect_to").Some? ==> Get(flowArgs, "redirect_to").value.Text?)
  }

  /** What `process_request` reports: the success and failure signals, and a
      `sign_in` of the created user. */
  datatype Event = SignupSuccess(flow: string, user: nat) | SignupFail(flow: string) | SignedIn(user: nat)

  /** The effect of one `process_request`: the flow arguments left, the events
      in order, the redirect target when it redirects, and the form it built. */
  datatype Outcome = Outcome(flowArgs: ODict<Arg>, events: seq<Event>, redirect: Option<string>, form: Form)

  /** `get_form`: the given template, else the class's `form_template`. */
  function LegacyTemplate(template: Option<Arg>): string
  {
    if template.Some? && template.value.Text? then template.value.text else LegacyFormTemplate
  }

  /** The form's data: the POST data when its `signup_flow` is the flow name
      (the request method is not looked at). */
  function LegacyData(post: ODict<string>, name: string): (data: Option<ODict<string>>)
    ensures data.Some? <==> Get(post, SignupFlowKey) == Some(name) && name != ""
    ensures data.Some? ==> data.value == post
  {
    if Get(post, SignupFlowKey).Some? && Get(post, SignupFlowKey).value != "" &&
       Get(post, SignupFlowKey).value == name then Some(post) else None
  }

  /** The form `process_request` builds: `get_form` with the popped
      `widget_attrs` and `template`, plus the hidden `signup_flow` field. */
  function LegacyForm(cls: LegacyFlowClass, flowArgs: ODict<Arg>, post: ODict<string>): (form: Form)
    requires cls.form.Some? && ArgsTyped(flowArgs)
    ensures form.cls == cls.form.value
    ensures form.data == LegacyData(post, LegacyFlowName(cls.name))
    ensures form.template == LegacyTemplate(Get(flowArgs, "template"))
    ensures Get(form.fields, SignupFlowKey) == Some(FlowField(LegacyFlowName(cls.name)))
  {
    var name := LegacyFlowName(cls.name);
    var f0 := InitForm(cls.form.value, LegacyData(post, name), WidgetAttrsArg(flowArgs),
                       LegacyTemplate(Get(flowArgs, "template")));
    PutGet(f0.fields, SignupFlowKey, FlowField(name));
    f0.(fields := Put(f0.fields, SignupFlowKey, FlowField(name)))
  }

  /** The flow arguments once `widget_attrs` and `template` are popped. */
  function AfterFormArgs(flowArgs: ODict<Arg>): (r: ODict<Arg>)
    ensures "widget_attrs" !in Keys(r) && "template" !in Keys(r)
    ensures forall k :: k != "widget_attrs" && k != "template" ==> Get(r, k) == Get(flowArgs, k)
  {
    Pop(Pop(flowArgs, "widget_attrs", None).1, "template", None).1
  }

  /** The success path: `auto_login` and `redirect_to` are popped, with
      their class defaults. */
  function AfterAdd(args: ODict<Arg>, name: string, user: nat, form: Form): (o: Outcome)
    requires Get(args, "redirect_to").Some? ==> Get(args, "redirect_to").value.Text?
    ensures "auto_login" !in Keys(o.flowArgs) && "redirect_to" !in Keys(o.flowArgs)
    ensures forall k :: k != "auto_login" && k != "redirect_to" ==> Get(o.flowArgs, k) == Get(args, k)
    ensures var autoLogin := if "auto_login" in Keys(args) then ArgTruthy(Get(args, "auto_login")) else LegacyAutoLogin;
      o.events == [SignupSuccess(name, user)] + (if autoLogin then [SignedIn(user)] else [])
    ensures var target := if "redirect_to" in Keys(args) then Get(args, "redirect_to").value.text else LegacyRedirectTo;
      o.redirect == if target != "" then Some(target) else None
    ensures o.form == form
  {
    var (autoLogin, args3) := Pop(args, "auto_login", Some(Flag(LegacyAutoLogin)));
    var signIn := if ArgTruthy(autoLogin) then [SignedIn(user)] else [];
    var (redirectTo, args4) := Pop(args3, "redirect_to", Some(Text(LegacyRedirectTo)));
    var target := if ArgTruthy(redirectTo) then Some(redirectTo.value.text) else None;
    Outcome(args4, [SignupSuccess(name, user)] + signIn, target, form)
  }

  /** `process_request`, as a function of the flow arguments and the POST
      data.  `valid` is the form's validation and `addUser` the subclass's
      `add_user` (`None` for a falsy result). */
  function LegacyProcess(cls: LegacyFlowClass, flowArgs: ODict<Arg>, post: ODict<string>,
                         valid: Form -> bool, addUser: Form -> Option<nat>): Outcome
    requires cls.form.Some? && LegacyArgsTyped(flowArgs)
  {
    var name := LegacyFlowName(cls.name);
    var form := LegacyForm(cls, flowArgs, post);
    var args := AfterFormArgs(flowArgs);
    if form.data.Some? && valid(form) then
      match addUser(form)
      case Some(user) => AfterAdd(args, name, user, form)
      case None => Outcome(args, [SignupFail(name)], None, form)
    else Outcome(args, [], None, form)
  }

  /** The one-shot arguments are gone afterwards: `widget_attrs` and
      `template` always, `auto_login` and `redirect_to` once a user was added;
      every other argument stays. */
  lemma LegacyPopsArgs(cls: LegacyFlowClass, flowArgs: ODict<Arg>, post: ODict<string>,
                       valid: Form -> bool, addUser: Form -> Option<nat>, k: string)
    requires cls.form.Some? && LegacyArgsTyped(flowArgs)
    ensures var o := LegacyProcess(cls, flowArgs, post, valid, addUser);
      "widget_attrs" !in Keys(o.flowArgs) && "template" !in Keys(o.flowArgs)
    ensures var o := LegacyProcess(cls, flowArgs, post, valid, addUser);
      o.events != [] && o.events[0].SignupSuccess? ==>
        "auto_login" !in Keys(o.flowArgs) && "redirect_to" !in Keys(o.flowArgs)
    ensures var o := LegacyProcess(cls, flowArgs, post, valid, addUser);
      k !in ["widget_attrs", "template", "auto_login", "redirect_to"] ==> Get(o.flowArgs, k) == Get(flowArgs, k)
  {
    LegacyProcessOf(cls, flowArgs, post, valid, addUser, LegacyForm(cls, flowArgs, post), AfterFormArgs(flowArgs));
  }

  /** The form is bound exactly when the POST's `signup_flow` is the flow
      name, and it always carries that hidden field and the template. */
  lemma LegacyBinding(cls: LegacyFlowClass, flowArgs: ODict<Arg>, post: ODict<string>,
                      valid: Form -> bool, addUser: Form -> Option<nat>)
    requires cls.form.Some? && LegacyArgsTyped(flowArgs)
    ensures var o := LegacyProcess(cls, flowArgs, post, valid, addUser);
      o.form.data.Some? <==> Get(post, SignupFlowKey) == Some(LegacyFlowName(cls.name)) && LegacyFlowName(cls.name) != ""
    ensures var o := LegacyProcess(cls, flowArgs, post, valid, addUser);
      Get(o.form.fields, SignupFlowKey) == Some(FlowField(LegacyFlowName(cls.name)))
    ensures var o := LegacyProcess(cls, flowArgs, post, valid, addUser);
      o.form.template == LegacyTemplate(Get(flowArgs, "template")) && o.form.cls == cls.form.value
  {
    LegacyProcessOf(cls, flowArgs, post, valid, addUser, LegacyForm(cls, flowArgs, post), AfterFormArgs(flowArgs));
  }

  /** A bound, valid form whose user was added: the success signal fires,
      the user is signed in unless `auto_login` is falsy (default true), and
      the flow redirects to `redirect_to` (default `/`) unless it is empty. */
  lemma LegacySuccess(cls: LegacyFlowClass, flowArgs: ODict<Arg>, post: ODict<string>,
                      valid: Form -> bool, addUser: Form -> Option<nat>)
    requires cls.form.Some? && LegacyArgsTyped(flowArgs)
    requires var o := LegacyProcess(cls, flowArgs, post, valid, addUser);
      o.form.data.Some? && valid(o.form) && addUser(o.form).Some?
    ensures var o := LegacyProcess(cls, flowArgs, post, valid, addUser);
      var user := addUser(o.form).value;
      var autoLogin := if "auto_login" in Keys(flowArgs) then ArgTruthy(Get(flowArgs, "auto_login")) else LegacyAutoLogin;
      o.events == [SignupSuccess(LegacyFlowName(cls.name), user)] + (if autoLogin then [SignedIn(user)] else [])
    ensures var o := LegacyProcess(cls, flowArgs, post, valid, addUser);
      var target := if "redirect_to" in Keys(flowArgs) then Get(flowArgs, "redirect_to").value.text else LegacyRedirectTo;
      o.redirect == if target != "" then Some(target) else None
  {
    var form := LegacyForm(cls, flowArgs, post);
    var args := AfterFormArgs(flowArgs);
    LegacyProcessOf(cls, flowArgs, post, valid, addUser, form, args);
    var o := AfterAdd(args, LegacyFlowName(cls.name), addUser(form).value, form);
    assert Get(args, "auto_login") == Get(flowArgs, "auto_login");
    assert Get(args, "redirect_to") == Get(flowArgs, "redirect_to");
    assert ("auto_login" in Keys(args)) == ("auto_login" in Keys(flowArgs));
    assert ("redirect_to" in Keys(args)) == ("redirect_to" in Keys(flowArgs));
  }

  /** A bound, valid form whose `add_user` gives nothing: only the failure
      signal fires and the view is called. */
  lemma LegacyFailure(cls: LegacyFlowClass, flowArgs: ODict<Arg>, post: ODict<string>,
                      valid: Form -> bool, addUser: Form -> Option<nat>)
    requires cls.form.Some? && LegacyArgsTyped(flowArgs)
    requires var o := LegacyProcess(cls, flowArgs, post, valid, addUser);
      o.form.data.Some? && valid(o.form) && addUser(o.form).None?
    ensures var o := LegacyProcess(cls, flowArgs, post, valid, addUser);
      o.events == [SignupFail(LegacyFlowName(cls.name))] && o.redirect.None?
  {
    LegacyProcessOf(cls, flowArgs, post, valid, addUser, LegacyForm(cls, flowArgs, post), AfterFormArgs(flowArgs));
  }

  /** An unbound or invalid form: no signal, no redirect. */
  lemma LegacyUnbound(cls: LegacyFlowClass, flowArgs: ODict<Arg>, post: ODict<string>,
                      valid: Form -> bool, addUser: Form -> Option<nat>)
    requires cls.form.Some? && LegacyArgsTyped(flowArgs)
    requires var o := LegacyProcess(cls, flowArgs, post, valid, addUser);
      o.form.data.None? || !valid(o.form)
    ensures var o := LegacyProcess(cls, flowArgs, post, valid, addUser);
      o.events == [] && o.redirect.None?
  {
    LegacyProcessOf(cls, flowArgs, post, valid, addUser, LegacyForm(cls, flowArgs, post), AfterFormArgs(flowArgs));
  }

  /** `LegacyProcess` by cases, once its form and remaining arguments are known. */
  lemma LegacyProcessOf(cls: LegacyFlowClass, flowArgs: ODict<Arg>, post: ODict<string>,
                        valid: Form -> bool, addUser: Form -> Option<nat>, form: Form, args: ODict<Arg>)
    requires cls.form.Some? && LegacyArgsTyped(flowArgs)
    requires form == LegacyForm(cls, flowArgs, post) && args == AfterFormArgs(flowArgs)
    ensures form.data.Some? && valid(form) && addUser(form).Some? ==>
      LegacyProcess(cls, flowArgs, post, valid, addUser) == AfterAdd(args, LegacyFlowName(cls.name), addUser(form).value, form)
    ensures form.data.Some? && valid(form) && addUser(form).None? ==>
      LegacyProcess(cls, flowArgs, post, valid, addUser) == Outcome(args, [SignupFail(LegacyFlowName(cls.name))], None, form)
    ensures !(form.data.Some? && valid(form)) ==>
      LegacyProcess(cls, flowArgs, post, valid, addUser) == Outcome(args, [], None, form)
  {
  }

  /** A legacy flow instance and its `flow_args`. */
  class LegacyFlow {
    const cls: LegacyFlowClass
    var flowArgs: ODict<Arg>

    constructor (cls: LegacyFlowClass, kwargs: ODict<Arg>)
      requires cls.form.Some?
      ensures this.cls == cls && flowArgs == kwargs
    {
      this.cls := cls;
      flowArgs := kwargs;
    }

    /** `get_form(form_data, widget_attrs, template)`. */
    method GetForm(data: Option<ODict<string>>, widgetAttrs: Option<ODict<AttrValue>>, template: Option<Arg>)
      returns (form: Form)
      requires cls.form.Some?
      requires widgetAttrs.Some? ==> DistinctKeys(widgetAttrs.value)
      ensures form == InitForm(cls.form.value, data, widgetAttrs, LegacyTemplate(template))
    {
      form := NewForm(cls.form.value, data);
      if template.Some? && template.value.Text? {
        form := form.(template := template.value.text);
      } else {
        form := form.(template := LegacyFormTemplate);
      }
      if widgetAttrs.Some? {
        var fields := ApplyAttrsToFormWidgets(form.fields, widgetAttrs.value);
        form := form.(fields := fields);
      }
    }

    /** The first half of `process_request`: the flow name decides whether
        the form is bound, `widget_attrs` and `template` are popped into
        `get_form`, and the hidden `signup_flow` field is attached. */
    method PrepareForm(post: ODict<string>) returns (form: Form)
      requires cls.form.Some? && LegacyArgsTyped(flowArgs)
      modifies this`flowArgs
      ensures form == LegacyForm(cls, old(flowArgs), post)
      ensures flowArgs == AfterFormArgs(old(flowArgs))
    {
      var name := LegacyFlowName(cls.name);
      var data := None;
      if Get(post, SignupFlowKey).Some? && Get(post, SignupFlowKey).value != "" &&
         Get(post, SignupFlowKey).value == name {
        data := Some(post);
      }
      assert data == LegacyData(post, name);
      var widgetAttrs := Pop(flowArgs, "widget_attrs", None);
      flowArgs := widgetAttrs.1;
      var template := Pop(flowArgs, "template", None);
      flowArgs := template.1;
      var attrs := if widgetAttrs.0.Some? then Some(widgetAttrs.0.value.attrs) else None;
      assert attrs == WidgetAttrsArg(old(flowArgs)) && template.0 == Get(old(flowArgs), "template");
      form := GetForm(data, attrs, template.0);
      form := form.(fields := Put(form.fields, SignupFlowKey, FlowField(name)));
    }

    /** The success path of `process_request`: the success signal, a
        `sign_in` unless `auto_login` is falsy, and the `redirect_to` target
        unless it is empty. */
    method FinishSignup(user: nat, form: Form) returns (events: seq<Event>, redirect: Option<string>)
      requires Get(flowArgs, "redirect_to").Some? ==> Get(flowArgs, "redirect_to").value.Text?
      modifies this`flowArgs
      ensures var o := AfterAdd(old(flowArgs), LegacyFlowName(cls.name), user, form);
        flowArgs == o.flowArgs && events == o.events && redirect == o.redirect
    {
      events := [SignupSuccess(LegacyFlowName(cls.name), user)];
      var autoLogin := Pop(flowArgs, "auto_login", Some(Flag(LegacyAutoLogin)));
      flowArgs := autoLogin.1;
      if ArgTruthy(autoLogin.0) {
        events := events + [SignedIn(user)];
      }
      var redirectTo := Pop(flowArgs, "redirect_to", Some(Text(LegacyRedirectTo)));
      flowArgs := redirectTo.1;
      redirect := if ArgTruthy(redirectTo.0) then Some(redirectTo.0.value.text) else None;
    }

    /** `process_request(request, view_function)`: `view` is what the wrapped
        view responds given the request's sign up forms. */
    method ProcessRequest(req: Request, view: ODict<Form> -> Response, valid: Form -> bool,
                          addUser: Form -> Option<nat>) returns (resp: Response, events: seq<Event>)
      requires cls.form.Some? && LegacyArgsTyped(flowArgs)
      modifies this`flowArgs, req`sitesignup
      ensures var o := LegacyProcess(cls, old(flowArgs), req.post, valid, addUser);
        flowArgs == o.flowArgs && events == o.events
      ensures var o := LegacyProcess(cls, old(flowArgs), req.post, valid, addUser);
        o.redirect.Some? ==> resp == RedirectTo(o.redirect.value) && req.sitesignup == old(req.sitesignup)
      ensures var o := LegacyProcess(cls, old(flowArgs), req.post, valid, addUser);
        var forms := Put(if old(req.sitesignup).Some? then old(req.sitesignup).value else [], LegacyFlowName(cls.name), o.form);
        o.redirect.None? ==> req.sitesignup == Some(forms) && resp == view(forms)
    {
      var forms := if req.sitesignup.Some? then req.sitesignup.value else [];
      var form := PrepareForm(req.post);
      LegacyProcessOf(cls, old(flowArgs), req.post, valid, addUser, form, flowArgs);
      events := [];
      if form.data.Some? && valid(form) {
        var result := addUser(form);
        if result.Some? {
          var redirect;
          events, redirect := FinishSignup(result.value, form);
          if redirect.Some? {
            return RedirectTo(redirect.value), events;
          }
        } else {
          events := [SignupFail(LegacyFlowName(cls.name))];
        }
      }
      forms := Put(forms, LegacyFlowName(cls.name), form);
      req.sitesignup := Some(forms);
      resp := view(forms);
    }
  }

  /** `SignupFlow.__init__`: a class without a form raises
      `NotImplementedError` (`None`). */
  method NewLegacyFlow(cls: LegacyFlowClass, kwargs: ODict<Arg>) returns (flow: Option<LegacyFlow>)
    ensures flow.None? <==> cls.form.None?
    ensures flow.Some? ==> fresh(flow.value) && flow.value.cls == cls && flow.value.flowArgs == kwargs
  {
    if cls.form.None? {
      return None;
    }
    var f := new LegacyFlow(cls, kwargs);
    flow := Some(f);
  }
}
