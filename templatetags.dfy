/** The `sitegate_signup_form` and `sitegate_signin_form` template tags
    (sitegate/templatetags/sitegate.py): parsing the tag, picking the form
    from `request.sitegate`, and rendering it inside a pushed template
    context. */
module TemplateTags {
  import opened Common
  import opened Forms
  import opened Flows

  // ---------------------------------------------------------------------
  // tag_builder

  /** `tag_builder`: one token (no flow name) or three whose second is
      `for` (the third is the flow name); any other shape is a
      `TemplateSyntaxError` (`None`). */
  function TagBuilder(tokens: seq<string>): (r: Option<Option<string>>)
    ensures r.Some? <==> |tokens| == 1 || (|tokens| == 3 && tokens[1] == "for")
    ensures r.Some? && |tokens| == 1 ==> r.value.None?
    ensures r.Some? && |tokens| == 3 ==> r.value == Some(tokens[2])
  {
    if |tokens| == 1 then Some(None)
    else if |tokens| == 3 && tokens[1] == "for" then Some(Some(tokens[2]))
    else None
  }

  /** A form node: its flow type (`signup` or `signin`) and optional flow name. */
  datatype Node = Node(flowType: FlowType, flowName: Option<string>)

  /** `sitegate_signup_form` and `sitegate_signin_form`. */
  function SignupFormTag(tokens: seq<string>): Option<Node>
  {
    match TagBuilder(tokens) case Some(n) => Some(Node(Signup, n)) case None => None
  }

  function SigninFormTag(tokens: seq<string>): Option<Node>
  {
    match TagBuilder(tokens) case Some(n) => Some(Node(Signin, n)) case None => None
  }

  // ---------------------------------------------------------------------
  // Form selection in render

  /** Which form `render` found: a form, none (a missing attribute or key),
      or an `IndexError` that escapes (no name and no forms at all). */
  datatype Selected = Found(form: Form) | Missing | Escapes

  /** The flow type's forms: none when `request.sitegate` or its
      `<type>_forms` key is missing. */
  function TypeForms(sg: Option<Sitegate>, t: FlowType): Option<ODict<Form>>
  {
    if sg.None? then None else Get(sg.value, FormsKey(t))
  }

  /** Without a name: the `ModernSignup` form when there is one, else the
      first inserted; with a name: exactly that entry. */
  function SelectFrom(forms: ODict<Form>, flowName: Option<string>): Selected
  {
    match flowName
    case Some(name) => (match Get(forms, name) case Some(f) => Found(f) case None => Missing)
    case None =>
      match Get(forms, "ModernSignup")
      case Some(f) => Found(f)
      case None => if |forms| == 0 then Escapes else Found(forms[0].1)
  }

  function SelectForm(node: Node, sg: Option<Sitegate>): Selected
  {
    match TypeForms(sg, node.flowType)
    case None => Missing
    case Some(forms) => SelectFrom(forms, node.flowName)
  }

  lemma SelectNamed(node: Node, sg: Option<Sitegate>)
    requires node.flowName.Some?
    ensures var r := SelectForm(node, sg);
      var forms := TypeForms(sg, node.flowType);
      (r.Found? <==> forms.Some? && node.flowName.value in Keys(forms.value)) &&
      (r.Found? ==> Get(forms.value, node.flowName.value) == Some(r.form)) &&
      !r.Escapes?
  {
  }

  lemma SelectDefault(node: Node, sg: Option<Sitegate>)
    requires node.flowName.None? && TypeForms(sg, node.flowType).Some?
    ensures var r := SelectForm(node, sg);
      var forms := TypeForms(sg, node.flowType).value;
      (Get(forms, "ModernSignup").Some? ==> r == Found(Get(forms, "ModernSignup").value)) &&
      (Get(forms, "ModernSignup").None? && |forms| > 0 ==> r == Found(forms[0].1)) &&
      (r.Escapes? <==> |forms| == 0)
  {
    var forms := TypeForms(sg, node.flowType).value;
    if |forms| == 0 {
      assert "ModernSignup" !in Keys(forms);
    }
  }

  /** The node only looks at its own flow type's forms. */
  lemma SelectOwnType(node: Node, sg1: Option<Sitegate>, sg2: Option<Sitegate>)
    requires TypeForms(sg1, node.flowType) == TypeForms(sg2, node.flowType)
    ensures SelectForm(node, sg1) == SelectForm(node, sg2)
  {
  }

  // ---------------------------------------------------------------------
  // render

  /** The template context: a stack of variable frames (only form
      variables are modelled), looked up from the top. */
  class Context {
    var frames: seq<ODict<Form>>

    constructor ()
      ensures frames == [[]]
    {
      frames := [[]];
    }

    /** `context[k]`: the value in the topmost frame that has `k`. */
    function Lookup(k: string): Option<Form>
      reads this
    {
      LookupIn(frames, k)
    }

    method Push()
      modifies this`frames
      ensures frames == old(frames) + [[]]
    {
      frames := frames + [[]];
    }

    /** `context[k] = v`: set in the topmost frame. */
    method Set(k: string, v: Form)
      requires |frames| > 0
      modifies this`frames
      ensures |frames| == |old(frames)|
      ensures frames[..|frames| - 1] == old(frames)[..|old(frames)| - 1]
      ensures frames[|frames| - 1] == Put(old(frames)[|old(frames)| - 1], k, v)
    {
      frames := frames[..|frames| - 1] + [Put(frames[|frames| - 1], k, v)];
    }

    method Pop()
      requires |frames| > 1
      modifies this`frames
      ensures frames == old(frames)[..|old(frames)| - 1]
    {
      frames := frames[..|frames| - 1];
    }
  }

  function LookupIn(frames: seq<ODict<Form>>, k: string): Option<Form>
  {
    if |frames| == 0 then None
    else match Get(frames[|frames| - 1], k)
      case Some(v) => Some(v)
      case None => LookupIn(frames[..|frames| - 1], k)
  }

  /** A value set in the top frame is what a lookup finds. */
  lemma LookupSet(frames: seq<ODict<Form>>, k: string, v: Form)
    requires |frames| > 0
    ensures LookupIn(frames[..|frames| - 1] + [Put(frames[|frames| - 1], k, v)], k) == Some(v)
  {
    var fs := frames[..|frames| - 1] + [Put(frames[|frames| - 1], k, v)];
    PutGet(frames[|frames| - 1], k, v);
    assert fs[|fs| - 1] == Put(frames[|frames| - 1], k, v);
  }

  /** What `render` produces: the rendered text, a `SiteGateError` in
      `DEBUG`, or the escaping `IndexError`. */
  datatype Output = Content(text: string) | SiteGateError | IndexError

  /** The context variable the form is rendered under (`signup_form`, `signin_form`). */
  function FormVar(t: FlowType): string
  {
    TypeName(t) + "_form"
  }

  /** `render` as a function: `renderTemplate` renders a template name with
      the form variable's value. */
  function RenderSpec(node: Node, sg: Option<Sitegate>, debug: bool, renderTemplate: (string, Form) -> string): Output
  {
    match SelectForm(node, sg)
    case Escapes => IndexError
    case Missing => if debug then SiteGateError else Content("")
    case Found(f) => Content(renderTemplate(f.template, f))
  }

  /** `render(context)`: the form is placed in a pushed frame, the template
      is rendered, and the frame is popped again. */
  method Render(node: Node, ctx: Context, sg: Option<Sitegate>, debug: bool,
                renderTemplate: (string, Form) -> string) returns (out: Output)
    requires |ctx.frames| > 0
    modifies ctx`frames
    ensures out == RenderSpec(node, sg, debug, renderTemplate)
    ensures ctx.frames == old(ctx.frames)
  {
    var selected := SelectForm(node, sg);
    if selected.Escapes? {
      return IndexError;
    }
    if selected.Missing? {
      if debug {
        return SiteGateError;
      }
      return Content("");
    }
    var form := selected.form;
    ctx.Push();
    ghost var pushed := ctx.frames;
    ctx.Set(FormVar(node.flowType), form);
    LookupSet(pushed, FormVar(node.flowType), form);
    assert ctx.frames == pushed[..|pushed| - 1] + [Put(pushed[|pushed| - 1], FormVar(node.flowType), form)];
    var value := ctx.Lookup(FormVar(node.flowType));
    var content := renderTemplate(value.value.template, value.value);
    ctx.Pop();
    out := Content(content);
  }

  /** Without a form there is nothing to render: `''`, or an error in `DEBUG`. */
  lemma RenderMissing(node: Node, sg: Option<Sitegate>, debug: bool, renderTemplate: (string, Form) -> string)
    requires TypeForms(sg, node.flowType).None?
    ensures RenderSpec(node, sg, debug, renderTemplate) == if debug then SiteGateError else Content("")
  {
  }
}
