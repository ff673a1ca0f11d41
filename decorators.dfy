/** The view decorators (sitegate/decorators.py): `signup_view` and
    `signin_view` wrap a view in a flow's `respond_for`, `redirect_signedin`
    sends signed-in users away, and `sitegate_view` stacks all three.  A
    decorated view is a `View` tree, innermost the view function itself;
    serving a request walks the tree from the outside in. */
module Decorators {
  import opened Common
  import opened Forms
  import opened Flows
  import SU = Signup
  import SI = Signin

  /** A positional argument of `redirect_signedin`: the decorated function
      itself (bare decoration) or a redirect target. */
  datatype DecArg = Callable | Url(url: string)

  /** A decorated view: the view function, a `FlowBuilder` (default flow
      class and decorator keyword arguments), or a `RedirectBuilder`
      (decorator positional arguments). */
  datatype View =
    | Endpoint
    | FlowView(default: FlowClass, kwargs: ODict<Arg>, inner: View)
    | Guarded(decArgs: seq<DecArg>, inner: View)

  /** The request as the decorators see it. */
  datatype Incoming = Incoming(authenticated: bool, isPost: bool, post: ODict<string>)

  /** What serving gives: a response decided by a decorator, or a call of
      the view function with the request's `sitegate` and the view's own
      positional and keyword arguments. */
  datatype Served =
    | Answered(response: Response)
    | Called(sitegate: Option<Sitegate>, args: seq<string>, kwargs: ODict<string>)

  // ---------------------------------------------------------------------
  // FlowBuilder.handle

  /** The flow class: the `flow` keyword when it is a flow class, else the
      builder's. */
  function FlowOf(default: FlowClass, kwargs: ODict<Arg>): (c: FlowClass)
    ensures Get(kwargs, "flow").None? ==> c == default
    ensures Get(kwargs, "flow").Some? && Get(kwargs, "flow").value.FlowArg? ==> Get(kwargs, "flow") == Some(FlowArg(c))
  {
    var a := Get(kwargs, "flow");
    if a.Some? && a.value.FlowArg? then a.value.cls else default
  }

  /** The flow's keyword arguments: a copy of the decorator's without `flow`. */
  function FlowKwargs(kwargs: ODict<Arg>): (r: ODict<Arg>)
    ensures "flow" !in Keys(r)
    ensures forall k :: k != "flow" ==> Get(r, k) == Get(kwargs, k)
  {
    Remove(kwargs, "flow")
  }

  /** The `flow_args` the flow's constructor leaves: the e-mail verifying
      sign up classes (those with a `verify_email` attribute) adjust them,
      every other class keeps them. */
  function ConstructedArgs(c: FlowClass, kwargs: ODict<Arg>): ODict<Arg>
  {
    if "verify_email" in Keys(c.attrs) then SU.WithEmailFlowArgs(c, kwargs) else kwargs
  }

  lemma ConstructedArgsTyped(c: FlowClass, kwargs: ODict<Arg>)
    requires ArgsTyped(kwargs)
    ensures ArgsTyped(ConstructedArgs(c, kwargs))
    ensures TemplateArg(ConstructedArgs(c, kwargs)) == TemplateArg(kwargs)
  {
    SU.WithEmailFlowArgsSpec(c, kwargs, "template");
    SU.WithEmailFlowArgsSpec(c, kwargs, "widget_attrs");
  }

  /** One `FlowBuilder` layer, `FlowBuilder.handle` up to the call of the
      view: the flow class is instantiated with the remaining arguments (a
      class without a form raises `NotImplementedError`; a `flow` that is
      not a class, or a mistyped `template` or `widget_attrs`, a
      `TypeError`) and `respond_for` either answers or registers its form.
      `valid` is form validation and `handle` a flow class's
      `handle_form_valid`. */
  function FlowStep(default: FlowClass, fkw: ODict<Arg>, req: Incoming, sg: Option<Sitegate>,
                    valid: Form -> bool, handle: FlowClass -> Form -> Option<Response>): Step
  {
    var c := FlowOf(default, fkw);
    if Get(fkw, "flow").Some? && !Get(fkw, "flow").value.FlowArg? then Answer(Failure("TypeError"))
    else if c.form.None? then Answer(Failure("NotImplementedError"))
    else if !ArgsTyped(FlowKwargs(fkw)) then Answer(Failure("TypeError"))
    else
      ConstructedArgsTyped(c, FlowKwargs(fkw));
      RespondStep(c, ConstructedArgs(c, FlowKwargs(fkw)), req.isPost, req.post, sg, valid, handle(c))
  }

  /** The flow layer for one request. */
  function Layer(req: Incoming, valid: Form -> bool, handle: FlowClass -> Form -> Option<Response>):
    (FlowClass, ODict<Arg>, Option<Sitegate>) -> Step
  {
    (default, fkw, sg) => FlowStep(default, fkw, req, sg, valid, handle)
  }

  // ---------------------------------------------------------------------
  // RedirectBuilder.handle

  /** The redirect target: `/` when the first decorator argument is the
      decorated function, else that argument; none at all (an `IndexError`)
      when there is no argument. */
  function RedirectTarget(decArgs: seq<DecArg>): Option<string>
  {
    if |decArgs| == 0 then None
    else if decArgs[0].Callable? then Some("/")
    else Some(decArgs[0].url)
  }

  // ---------------------------------------------------------------------
  // Serving a decorated view

  /** Serve a request through the decorators of `v`, outermost first;
      `layer` is what one `FlowBuilder` does before calling its inner view
      (`Layer` for the real flows). */
  function Serve(v: View, authenticated: bool, layer: (FlowClass, ODict<Arg>, Option<Sitegate>) -> Step,
                 sg: Option<Sitegate>, args: seq<string>, kwargs: ODict<string>): Served
  {
    match v
    case Endpoint => Called(sg, args, kwargs)
    case Guarded(decArgs, inner) =>
      if authenticated then
        match RedirectTarget(decArgs)
        case None => Answered(Failure("IndexError"))
        case Some(t) => Answered(RedirectTo(t))
      else Serve(inner, authenticated, layer, sg, args, kwargs)
    case FlowView(default, fkw, inner) =>
      match layer(default, fkw, sg)
      case Answer(r) => Answered(r)
      case Proceed(s) => Serve(inner, authenticated, layer, Some(s), args, kwargs)
  }

  /** `signup_view(**kwargs)`: a `FlowBuilder` defaulting to `ModernSignup`. */
  function SignupView(kwargs: ODict<Arg>, inner: View): View
  {
    FlowView(SU.ModernSignup, kwargs, inner)
  }

  /** `signin_view(**kwargs)`: a `FlowBuilder` defaulting to `ModernSignin`. */
  function SigninView(kwargs: ODict<Arg>, inner: View): View
  {
    FlowView(SI.ModernSignin, kwargs, inner)
  }

  /** `redirect_signedin(*args)`. */
  function RedirectSignedin(decArgs: seq<DecArg>, inner: View): View
  {
    Guarded(decArgs, inner)
  }

  /** `sitegate_view`: sign up outermost, then sign in, then the bare
      redirect guard.  Used bare, the flows get no arguments; used with
      keyword arguments, both flows get them. */
  function SitegateView(kwargs: ODict<Arg>, inner: View): View
  {
    SignupView(kwargs, SigninView(kwargs, RedirectSignedin([Callable], inner)))
  }

  // ---------------------------------------------------------------------
  // Properties

  /** The view function always gets the arguments it was called with. */
  lemma {:induction false} ServePassesArgs(v: View, authenticated: bool,
                                           layer: (FlowClass, ODict<Arg>, Option<Sitegate>) -> Step,
                                           sg: Option<Sitegate>, args: seq<string>, kwargs: ODict<string>)
    ensures var r := Serve(v, authenticated, layer, sg, args, kwargs);
      r.Called? ==> r.args == args && r.kwargs == kwargs
  {
    match v
    case Endpoint =>
    case Guarded(_, inner) =>
      ServePassesArgs(inner, authenticated, layer, sg, args, kwargs);
    case FlowView(default, fkw, inner) =>
      var step := layer(default, fkw, sg);
      if step.Proceed? {
        ServePassesArgs(inner, authenticated, layer, Some(step.sitegate), args, kwargs);
      }
  }

  /** No decorator of `v` uses a flow of type `t`. */
  predicate NoFlowOfType(v: View, t: FlowType)
  {
    match v
    case Endpoint => true
    case FlowView(default, fkw, inner) => FlowOf(default, fkw).flowType != t && NoFlowOfType(inner, t)
    case Guarded(_, inner) => NoFlowOfType(inner, t)
  }

  /** The forms of type `t` in an optional `sitegate`. */
  function FormsEntry(sg: Option<Sitegate>, t: FlowType): Option<ODict<Form>>
  {
    if sg.None? then None else Get(sg.value, FormsKey(t))
  }

  /** A layer whose flows of another type leave the `t` forms alone. */
  ghost predicate KeepsOtherForms(layer: (FlowClass, ODict<Arg>, Option<Sitegate>) -> Step, t: FlowType)
  {
    forall default, fkw, sg :: FlowOf(default, fkw).flowType != t && layer(default, fkw, sg).Proceed? ==>
      FormsEntry(Some(layer(default, fkw, sg).sitegate), t) == FormsEntry(sg, t)
  }

  /** A flow of another type leaves the `t` forms alone. */
  lemma FlowStepKeepsOtherForms(default: FlowClass, fkw: ODict<Arg>, req: Incoming, sg: Option<Sitegate>,
                                valid: Form -> bool, handle: FlowClass -> Form -> Option<Response>, t: FlowType)
    requires FlowOf(default, fkw).flowType != t
    ensures var s := FlowStep(default, fkw, req, sg, valid, handle);
      s.Proceed? ==> FormsEntry(Some(s.sitegate), t) == FormsEntry(sg, t)
  {
    var c := FlowOf(default, fkw);
    if FlowStep(default, fkw, req, sg, valid, handle).Proceed? {
      var a := ConstructedArgs(c, FlowKwargs(fkw));
      ConstructedArgsTyped(c, FlowKwargs(fkw));
      RespondStepSpec(c, a, req.isPost, req.post, sg, valid, handle(c));
      var f := RequestedForm(c, a, req.isPost, req.post).value;
      FormsKeysDiffer();
      assert FormsKey(t) != FormsKey(c.flowType) by {
        if t == Signin { assert c.flowType == Signup; } else { assert c.flowType == Signin; }
      }
      RegisteredSpec(sg, c.flowType, c.name, f, FormsKey(t));
    }
  }

  /** The real flows register under their own type only. */
  lemma LayerKeepsOtherForms(req: Incoming, valid: Form -> bool, handle: FlowClass -> Form -> Option<Response>,
                             t: FlowType)
    ensures KeepsOtherForms(Layer(req, valid, handle), t)
  {
    forall default, fkw, sg | FlowOf(default, fkw).flowType != t
      ensures var s := Layer(req, valid, handle)(default, fkw, sg);
        s.Proceed? ==> FormsEntry(Some(s.sitegate), t) == FormsEntry(sg, t)
    {
      FlowStepKeepsOtherForms(default, fkw, req, sg, valid, handle, t);
    }
  }

  /** Views decorated only with flows of the other type leave the `t`
      forms as they were: sign-in decoration alone never creates
      `signup_forms`, and the other way round. */
  lemma {:induction false} ServeKeepsOtherType(v: View, authenticated: bool,
                                               layer: (FlowClass, ODict<Arg>, Option<Sitegate>) -> Step,
                                               sg: Option<Sitegate>, args: seq<string>, kwargs: ODict<string>,
                                               t: FlowType)
    requires NoFlowOfType(v, t) && KeepsOtherForms(layer, t)
    ensures var r := Serve(v, authenticated, layer, sg, args, kwargs);
      r.Called? ==> FormsEntry(r.sitegate, t) == FormsEntry(sg, t)
  {
    match v
    case Endpoint =>
    case Guarded(_, inner) =>
      ServeKeepsOtherType(inner, authenticated, layer, sg, args, kwargs, t);
    case FlowView(default, fkw, inner) =>
      var step := layer(default, fkw, sg);
      if step.Proceed? {
        ServeKeepsOtherType(inner, authenticated, layer, Some(step.sitegate), args, kwargs, t);
      }
  }

  /** A flow class with a form, decorator arguments naming no other `flow`,
      and a template that resolves. */
  predicate Resolvable(c: FlowClass, fkw: ODict<Arg>)
  {
    Get(fkw, "flow").None? && c.form.Some? && ArgsTyped(FlowKwargs(fkw)) &&
    GetTemplateName(c.flowType, TemplateArg(FlowKwargs(fkw))).Some?
  }

  /** On a GET, a flow class with a form and a resolvable template always
      proceeds and registers its unbound form under its name. */
  lemma FlowStepOnGet(c: FlowClass, fkw: ODict<Arg>, req: Incoming, sg: Option<Sitegate>,
                      valid: Form -> bool, handle: FlowClass -> Form -> Option<Response>)
    requires Resolvable(c, fkw) && !req.isPost
    ensures var s := FlowStep(c, fkw, req, sg, valid, handle);
      s.Proceed? && Get(s.sitegate, FormsKey(c.flowType)).Some? &&
      Keys(Get(s.sitegate, FormsKey(c.flowType)).value) ==
        if c.name in Keys(FormsOf(sg, c.flowType)) then Keys(FormsOf(sg, c.flowType))
        else Keys(FormsOf(sg, c.flowType)) + [c.name]
  {
    var a := ConstructedArgs(c, FlowKwargs(fkw));
    ConstructedArgsTyped(c, FlowKwargs(fkw));
    RespondStepSpec(c, a, req.isPost, req.post, sg, valid, handle(c));
    RegisteredSpec(sg, c.flowType, c.name, RequestedForm(c, a, req.isPost, req.post).value, "");
  }

  /** Two stacked flow decorators that both proceed call the view with what
      the inner one leaves. */
  lemma StackedThroughFlows(c1: FlowClass, kw1: ODict<Arg>, c2: FlowClass, kw2: ODict<Arg>, authenticated: bool,
                            layer: (FlowClass, ODict<Arg>, Option<Sitegate>) -> Step,
                            args: seq<string>, kwargs: ODict<string>)
    ensures var l1 := layer(c1, kw1, None);
      l1.Proceed? && layer(c2, kw2, Some(l1.sitegate)).Proceed? ==>
        Serve(FlowView(c1, kw1, FlowView(c2, kw2, Endpoint)), authenticated, layer, None, args, kwargs) ==
        Called(Some(layer(c2, kw2, Some(l1.sitegate)).sitegate), args, kwargs)
  {
    var l1 := layer(c1, kw1, None);
    if l1.Proceed? && layer(c2, kw2, Some(l1.sitegate)).Proceed? {
      var sg := Some(layer(c2, kw2, Some(l1.sitegate)).sitegate);
      assert Serve(FlowView(c2, kw2, Endpoint), authenticated, layer, Some(l1.sitegate), args, kwargs) ==
        Serve(Endpoint, authenticated, layer, sg, args, kwargs);
    }
  }

  /** A layer under which the flow `c` with arguments `kw`, whatever the
      request's `sitegate` holds, proceeds and registers its form under its
      name after the forms already there. */
  ghost predicate RegistersOnGet(layer: (FlowClass, ODict<Arg>, Option<Sitegate>) -> Step, c: FlowClass, kw: ODict<Arg>)
  {
    forall sg: Option<Sitegate> ::
      layer(c, kw, sg).Proceed? && Get(layer(c, kw, sg).sitegate, FormsKey(c.flowType)).Some? &&
      Keys(Get(layer(c, kw, sg).sitegate, FormsKey(c.flowType)).value) ==
        if c.name in Keys(FormsOf(sg, c.flowType)) then Keys(FormsOf(sg, c.flowType))
        else Keys(FormsOf(sg, c.flowType)) + [c.name]
  }

  /** On a GET, the real flow layer registers every resolvable flow. */
  lemma LayerRegistersOnGet(c: FlowClass, kw: ODict<Arg>, req: Incoming,
                            valid: Form -> bool, handle: FlowClass -> Form -> Option<Response>)
    requires Resolvable(c, kw) && !req.isPost
    ensures RegistersOnGet(Layer(req, valid, handle), c, kw)
  {
    forall sg: Option<Sitegate>
      ensures var s := Layer(req, valid, handle)(c, kw, sg);
        s.Proceed? && Get(s.sitegate, FormsKey(c.flowType)).Some? &&
        Keys(Get(s.sitegate, FormsKey(c.flowType)).value) ==
          if c.name in Keys(FormsOf(sg, c.flowType)) then Keys(FormsOf(sg, c.flowType))
          else Keys(FormsOf(sg, c.flowType)) + [c.name]
    {
      FlowStepOnGet(c, kw, req, sg, valid, handle);
    }
  }

  /** Two registering flows of one type, one after the other, leave both
      forms, the first one's first. */
  lemma StackedForms(layer: (FlowClass, ODict<Arg>, Option<Sitegate>) -> Step,
                     c1: FlowClass, kw1: ODict<Arg>, c2: FlowClass, kw2: ODict<Arg>)
    requires RegistersOnGet(layer, c1, kw1) && RegistersOnGet(layer, c2, kw2)
    requires c1.flowType == c2.flowType && c1.name != c2.name
    ensures var l1 := layer(c1, kw1, None);
      l1.Proceed? && layer(c2, kw2, Some(l1.sitegate)).Proceed?
    ensures var l1 := layer(c1, kw1, None);
      var s2 := layer(c2, kw2, Some(l1.sitegate)).sitegate;
      Get(s2, FormsKey(c1.flowType)).Some? && Keys(Get(s2, FormsKey(c1.flowType)).value) == [c1.name] + [c2.name]
  {
    var s1 := layer(c1, kw1, None).sitegate;
    var k1 := Keys(FormsOf(Some(s1), c1.flowType));
    assert k1 == [c1.name];
    assert c2.name !in k1;
    var s2 := layer(c2, kw2, Some(s1)).sitegate;
    assert Keys(Get(s2, FormsKey(c1.flowType)).value) == k1 + [c2.name];
  }

  /** Two stacked flows of one type on a GET register both forms under their
      names, the outer decorator's first. */
  lemma StackedFlowsOrder(c1: FlowClass, kw1: ODict<Arg>, c2: FlowClass, kw2: ODict<Arg>, req: Incoming,
                          args: seq<string>, kwargs: ODict<string>, valid: Form -> bool,
                          handle: FlowClass -> Form -> Option<Response>)
    requires Resolvable(c1, kw1) && Resolvable(c2, kw2) && !req.isPost
    requires c1.flowType == c2.flowType && c1.name != c2.name
    ensures var r := Serve(FlowView(c1, kw1, FlowView(c2, kw2, Endpoint)), req.authenticated,
                           Layer(req, valid, handle), None, args, kwargs);
      r.Called? && FormsEntry(r.sitegate, c1.flowType).Some? &&
      Keys(FormsEntry(r.sitegate, c1.flowType).value) == [c1.name] + [c2.name]
  {
    LayerRegistersOnGet(c1, kw1, req, valid, handle);
    LayerRegistersOnGet(c2, kw2, req, valid, handle);
    StackedForms(Layer(req, valid, handle), c1, kw1, c2, kw2);
    StackedThroughFlows(c1, kw1, c2, kw2, req.authenticated, Layer(req, valid, handle), args, kwargs);
  }

  /** What an outer sign up flow `cu` and an inner sign in flow `ci` leave,
      when both proceed. */
  function PairForms(layer: (FlowClass, ODict<Arg>, Option<Sitegate>) -> Step, cu: FlowClass, ci: FlowClass,
                     kw: ODict<Arg>): Option<Sitegate>
  {
    match layer(cu, kw, None)
    case Proceed(s1) =>
      (match layer(ci, kw, Some(s1))
       case Proceed(s2) => Some(s2)
       case Answer(_) => None)
    case Answer(_) => None
  }

  /** Once both flows of `sitegate_view` proceed, what remains is the guard. */
  lemma SitegateThroughFlows(kw: ODict<Arg>, authenticated: bool,
                             layer: (FlowClass, ODict<Arg>, Option<Sitegate>) -> Step,
                             args: seq<string>, kwargs: ODict<string>)
    requires PairForms(layer, SU.ModernSignup, SI.ModernSignin, kw).Some?
    ensures Serve(SitegateView(kw, Endpoint), authenticated, layer, None, args, kwargs) ==
      if authenticated then Answered(RedirectTo("/"))
      else Called(PairForms(layer, SU.ModernSignup, SI.ModernSignin, kw), args, kwargs)
  {
    var s1 := layer(SU.ModernSignup, kw, None).sitegate;
    var guard := RedirectSignedin([Callable], Endpoint);
    assert Serve(SitegateView(kw, Endpoint), authenticated, layer, None, args, kwargs) ==
      Serve(SigninView(kw, guard), authenticated, layer, Some(s1), args, kwargs);
    assert Serve(SigninView(kw, guard), authenticated, layer, Some(s1), args, kwargs) ==
      Serve(guard, authenticated, layer, PairForms(layer, SU.ModernSignup, SI.ModernSignin, kw), args, kwargs);
    assert RedirectTarget([Callable]) == Some("/");
    var sg := PairForms(layer, SU.ModernSignup, SI.ModernSignin, kw);
    assert Serve(Endpoint, authenticated, layer, sg, args, kwargs) == Called(sg, args, kwargs);
  }

  /** A GET whose decorator arguments name no `flow` and no `template`. */
  predicate PlainGet(kw: ODict<Arg>, req: Incoming)
  {
    Get(kw, "flow").None? && Get(kw, "template").None? && ArgsTyped(FlowKwargs(kw)) && !req.isPost
  }

  /** On a GET without a `template` argument, a flow class with a form
      proceeds and leaves its type's forms. */
  lemma DefaultTemplateOnGet(c: FlowClass, kw: ODict<Arg>, req: Incoming, sg: Option<Sitegate>,
                             valid: Form -> bool, handle: FlowClass -> Form -> Option<Response>)
    requires PlainGet(kw, req) && c.form.Some?
    ensures var s := FlowStep(c, kw, req, sg, valid, handle);
      s.Proceed? && FormsEntry(Some(s.sitegate), c.flowType).Some?
  {
    assert TemplateArg(FlowKwargs(kw)).None?;
    TemplateDefault(c.flowType);
    assert Resolvable(c, kw);
    FlowStepOnGet(c, kw, req, sg, valid, handle);
  }

  /** On a GET without `flow` or `template` arguments, a sign up flow and
      a sign in flow both proceed and leave both `signup_forms` and
      `signin_forms`. */
  lemma PairFormsOnGet(cu: FlowClass, ci: FlowClass, kw: ODict<Arg>, req: Incoming, valid: Form -> bool,
                       handle: FlowClass -> Form -> Option<Response>)
    requires cu.form.Some? && cu.flowType == Signup && ci.form.Some? && ci.flowType == Signin
    requires PlainGet(kw, req)
    ensures var sg := PairForms(Layer(req, valid, handle), cu, ci, kw);
      sg.Some? && FormsEntry(sg, Signup).Some? && FormsEntry(sg, Signin).Some?
  {
    DefaultTemplateOnGet(cu, kw, req, None, valid, handle);
    var s1 := FlowStep(cu, kw, req, None, valid, handle).sitegate;
    DefaultTemplateOnGet(ci, kw, req, Some(s1), valid, handle);
    FlowStepKeepsOtherForms(ci, kw, req, Some(s1), valid, handle, Signup);
  }

  /** `sitegate_view` for an anonymous GET: both `signup_forms` and
      `signin_forms` reach the view. */
  lemma SitegateAnonymous(kw: ODict<Arg>, req: Incoming, args: seq<string>, kwargs: ODict<string>,
                          valid: Form -> bool, handle: FlowClass -> Form -> Option<Response>)
    requires PlainGet(kw, req) && !req.authenticated
    ensures var r := Serve(SitegateView(kw, Endpoint), req.authenticated, Layer(req, valid, handle), None, args, kwargs);
      r.Called? && FormsEntry(r.sitegate, Signup).Some? && FormsEntry(r.sitegate, Signin).Some?
  {
    PairFormsOnGet(SU.ModernSignup, SI.ModernSignin, kw, req, valid, handle);
    SitegateThroughFlows(kw, req.authenticated, Layer(req, valid, handle), args, kwargs);
  }

  /** `sitegate_view` for a signed-in user's GET: both flows register their
      forms, then the guard redirects to `/`. */
  lemma SitegateSignedIn(kw: ODict<Arg>, req: Incoming, args: seq<string>, kwargs: ODict<string>,
                         valid: Form -> bool, handle: FlowClass -> Form -> Option<Response>)
    requires PlainGet(kw, req) && req.authenticated
    ensures Serve(SitegateView(kw, Endpoint), req.authenticated, Layer(req, valid, handle), None, args, kwargs) ==
      Answered(RedirectTo("/"))
  {
    PairFormsOnGet(SU.ModernSignup, SI.ModernSignin, kw, req, valid, handle);
    SitegateThroughFlows(kw, req.authenticated, Layer(req, valid, handle), args, kwargs);
  }

  /** `redirect_signedin` used bare sends a signed-in user to `/`; with a
      target, to that target; an anonymous user reaches the inner view. */
  lemma RedirectSignedinSpec(decArgs: seq<DecArg>, inner: View, authenticated: bool,
                             layer: (FlowClass, ODict<Arg>, Option<Sitegate>) -> Step,
                             sg: Option<Sitegate>, args: seq<string>, kwargs: ODict<string>)
    requires |decArgs| > 0
    ensures var r := Serve(RedirectSignedin(decArgs, inner), authenticated, layer, sg, args, kwargs);
      if !authenticated then r == Serve(inner, authenticated, layer, sg, args, kwargs)
      else if decArgs[0].Callable? then r == Answered(RedirectTo("/"))
      else r == Answered(RedirectTo(decArgs[0].url))
  {
  }
}
