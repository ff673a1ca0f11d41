# django-sitegate in Dafny

A model of the core of django-sitegate, a Django application that gives a
site its sign up and sign in pages. Each part of the model follows one
source module:

- **Models** (`models.dfy`). The package's tables are sequences held by one
  `Db` class, which also keeps the database constraints as an invariant:
  - blacklisted e-mail domains;
  - invitation codes and e-mail confirmations, each with a unique code;
  - remote sign-in records.

  The class's methods change the tables as the model methods do:
  `is_blacklisted`, code generation and `save`, `is_valid`, `accept`,
  `activate`, `add` and `cleanup`.
- **Flows** (`flows.dfy`, `signup.dfy`, `signin.dfy`). This is the
  `FlowsBase` machinery:
  - the argument/attribute lookup;
  - template names;
  - the requested form and its binding to POST data;
  - registering forms under `request.sitegate`;
  - `respond_for`.

  On top of it are the classic, e-mail, modern and invitation sign up flows
  (field validators, `add_user`, `send_email`, `sign_in`) and the modern sign
  in form's e-mail login.
- **Legacy sign up flow** (`legacy.dfy`). The older `SignupFlow` base class
  in `sitegate/signup_flows/base.py`, with its own `process_request`.
- **Forms and widget attributes** (`forms.dfy`, `utils.dfy`). The form
  classes are ordered field tables, and `apply_attrs_to_form_widgets` is a
  loop over them.
- **Remote sign in** (`remotes.dfy`, `providers.dfy`):
  - `construct_user` with its fallbacks for a taken username;
  - `auth_finish` and `redirect`;
  - the Google and Yandex profile normalisation and authorization URLs.
- **Decorators** (`decorators.dfy`). `signup_view`, `signin_view`,
  `redirect_signedin` and `sitegate_view` as a tree of decorated views,
  served from the outside in.
- **Template tags** (`templatetags.dfy`):
  - the tag parser;
  - the form selection in `render`;
  - rendering inside a pushed template context.
- **Views** (`views.dfy`). `verify_email` and `generic_confirmation`: their
  decisions on the confirmation table, the messages they record and where
  they redirect.

Django's exceptions are result values (`Option`, `Cleaned`, `Reply`, ...).
The clock is an integer parameter. The uuid4 generator is a supply of
candidate strings. Framework services the core only calls are function
parameters:
- authentication;
- template rendering;
- signal receivers;
- `decrypt_data`;
- URL quoting.

Where the package's own test and the code disagree, the model follows the code:
- `sitegate/signup_flows/base.py` names a flow
  `cls.__name__.lower().replace('signup', '')` (`ModernSignup` becomes
  `modern`). The package's test (`sitegate/tests/test_basic.py:51-52`)
  and the `FlowsBase` flows use the class name itself. Both are modelled:
  the legacy class in `legacy.dfy`, the `FlowsBase` flows in `flows.dfy`.
- `classic.py` and `modern.py` call `FlowsBase` helpers (`get_arg_or_attr`,
  `form.flow`) that the legacy `SignupFlow` does not have. The sign up flows
  are therefore modelled on `FlowsBase` with flow type `signup`.

## Model

| member | source | states |
|---|---|---|
| Models.ListSubDomains | sitegate/models.py:38-43 | the loop builds exactly the list of the domain and its parent domains, one tail per dot beyond the last |
| Models.SubDomainsMembership | sitegate/models.py:40-43 | a name is looked up iff it is the domain itself or a tail after one of its dots that still contains a dot |
| Models.BlacklistedIff | sitegate/models.py:31-45 | an address is blacklisted iff an enabled entry equals its domain or a parent domain of at least two labels |
| Models.DisabledEntryIgnored | sitegate/models.py:45 | adding a disabled entry never changes any verdict |
| Models.BlacklistedIgnoresCase | sitegate/models.py:38 | the letter case of the domain part never changes the verdict |
| Models.Db.IsBlacklisted | sitegate/models.py:31-45 | an address without `@` raises (`None`); otherwise the result is the blacklist verdict |
| Models.GenerateCode | sitegate/models.py:89-91 | a generated code has no dash and is the uuid text minus its dashes |
| Models.GenerateCodeIdempotent | sitegate/models.py:91 | generating from a generated code gives it back |
| Models.SaveCode | sitegate/models.py:64-78 | an empty code is replaced by the first generated code not yet stored; a given code is stored as is unless it is a duplicate (the escaping `IntegrityError`) |
| Models.IsValid | sitegate/models.py:80-87 | a row is returned iff it is the only unexpired row with the code |
| Models.IsValidUnique | sitegate/models.py:80-87 | with unique codes, a code is valid iff an unexpired row carries it |
| Models.CountCodeUnique | sitegate/models.py:117-119 | with unique codes the update touches one row for a stored code and none otherwise |
| Models.AcceptInvalidates | sitegate/models.py:117-119 | after `accept` the code is no longer valid, and every other code keeps its verdict |
| Models.CleanupSpec | sitegate/models.py:180-197 | cleanup keeps exactly the records that are not stale; linked records always survive |
| Models.KeepFreshUnique | sitegate/models.py:180-197 | cleanup only deletes, so codes stay unique |
| Models.Db.AddInvitation | sitegate/models.py:111-115 | appends an unexpired, unaccepted row with a code not stored before, keeping the constraints |
| Models.Db.AcceptInvitation | sitegate/models.py:117-119 | every row with the code is accepted and expired; returns 1 for a stored code, else 0 |
| Models.Db.AddConfirmation | sitegate/models.py:134-138 | appends an unexpired confirmation for the user with a fresh code |
| Models.Db.Activate | sitegate/models.py:140-147 | the row is expired and stamped, its user becomes active, nothing else changes |
| Models.Db.AddRemoteRecord | sitegate/models.py:171-178 | appends an unlinked record with a fresh code |
| Models.Db.Cleanup | sitegate/models.py:180-197 | the remote records become exactly the non-stale ones, in order |
| Utils.WidgetAttrs | sitegate/utils.py:10-13 | a field's attributes have the same keys as the given ones |
| Utils.WidgetAttrValue | sitegate/utils.py:11-13 | a plain attribute keeps its value on every field; a callable one takes the value it gives when called with that field |
| Utils.BuildAttrs | sitegate/utils.py:14 | the widget gets a copy of the resolved attributes, in order |
| Utils.ResolveAttrs | sitegate/utils.py:10-13 | each callable attribute is replaced by the value it gives when called with the field, plain ones are kept, keys and order unchanged |
| Utils.ApplyAttrsToFormWidgets | sitegate/utils.py:4-14 | the loop leaves every field with its widget attributes replaced |
| Utils.WithWidgetAttrsShape | sitegate/utils.py:9-14 | field names and order are kept; each field keeps everything but its widget attributes |
| Forms.PutFirst | sitegate/signup_flows/modern.py:53-55 | inserting at position 0 puts the key first, keeps the other keys in order and keeps keys distinct |
| Forms.ClassicFieldNames | sitegate/signup_flows/classic.py:67-72 | the classic form has username, password1, password2; the simple one drops password2 |
| Forms.WithEmailFieldNames | sitegate/signup_flows/classic.py:83-95 | the e-mail form has username, email, password1, password2; the simple one drops password2 |
| Forms.ModernFieldNames | sitegate/signup_flows/modern.py:13-55 | the modern form has only email and password1; the invitation form puts code before them |
| Forms.SigninFieldNames | sitegate/signin_flows/modern.py:9-13 | both sign in forms have username and password, the modern one only relabels username |
| Forms.ModernSigninLabel | sitegate/signin_flows/modern.py:11-13 | the modern sign in form relabels its username field and keeps it required |
| Flows.ArgOverridesAttr | sitegate/flows_base.py:94-98 | a flow argument wins over the class attribute and the default |
| Flows.AttrOverridesDefault | sitegate/flows_base.py:99-102 | without an argument, the class attribute wins over the default |
| Flows.FormatOne | sitegate/flows_base.py:40-41 | a template with one `%s` and no other `%` gets the value in its place |
| Flows.TemplateShortcut | sitegate/flows_base.py:38-41 | a shortcut name becomes `sitegate/<type>/<name>.html` |
| Flows.TemplateDefault | sitegate/flows_base.py:35-41 | no template means `sitegate/<type>/form_as_p.html` |
| Flows.TemplatePath | sitegate/flows_base.py:38-42 | a full path without `%` is used as given |
| Flows.TemplatePlaceholder | sitegate/flows_base.py:40-41 | a full path with one `%s` gets the flow type in its place |
| Flows.RegisteredSpec | sitegate/flows_base.py:61-75 | after `update_request` the form is under the flow name, earlier forms keep their order, other keys are unchanged |
| Flows.FormsKeysDiffer | sitegate/flows_base.py:63 | sign in and sign up forms live under different keys |
| Flows.RequestedForm | sitegate/flows_base.py:104-119 | the form is bound to the POST iff it names this flow; it carries the template, the hidden flow field and the enabled/disabled text; a broken template name is an error |
| Flows.RespondStepOf | sitegate/flows_base.py:48-59 | `respond_for` answers with the handler's result for a bound, valid form it handles, and otherwise registers the form and calls the view |
| Flows.RespondStepSpec | sitegate/flows_base.py:48-59 | the view is skipped iff the template is broken or a bound valid form is handled |
| Flows.LoginGeneric | sitegate/flows_base.py:86-92 | logs in (returns the id) iff authentication finds an active user |
| Flows.Flow.InitFormFor | sitegate/flows_base.py:121-129 | builds the form with its template and, when given, the widget attributes |
| Flows.Flow.GetRequestedForm | sitegate/flows_base.py:104-119 | returns the requested form for the request |
| Flows.Flow.UpdateRequest | sitegate/flows_base.py:61-75 | `request.sitegate` becomes the registered forms |
| Flows.Flow.RespondFor | sitegate/flows_base.py:48-59 | answers or registers the form and calls the view, as `respond_for` decides |
| Flows.NewFlow | sitegate/flows_base.py:22-25 | a class without a form raises; otherwise the flow keeps the arguments |
| Signup.CleanUsername | sitegate/signup_flows/classic.py:42-51 | a username is accepted unchanged iff no user holds it, else rejected as a duplicate |
| Signup.CleanEmail | sitegate/signup_flows/classic.py:100-109 | with domain validation on, a blacklisted address is rejected; otherwise it is accepted unchanged |
| Signup.ModernCleanEmailSpec | sitegate/signup_flows/modern.py:20-24 | the modern check keeps the parent's verdicts and also rejects an address some user has, ignoring case |
| Signup.ModernCleanEmailAdmitsTakenUsername | sitegate/signup_flows/modern.py:20-24 | an address some user has as a username but nobody as an e-mail passes the form, and the insert under that username then fails |
| Signup.ModernCleanEmailIgnoresCase | sitegate/signup_flows/modern.py:22-23 | an address differing only in case from a user's is rejected |
| Signup.CleanCode | sitegate/signup_flows/modern.py:57-61 | a code is accepted iff it is a valid invitation code |
| Signup.CleanCodeUnique | sitegate/signup_flows/modern.py:57-61 | with unique codes, accepted iff some row has it unexpired |
| Signup.WithEmailFlowArgsSpec | sitegate/signup_flows/classic.py:121-129 | a verifying flow turns off `activate_user` and `auto_signin` and keeps every other argument; a non-verifying one keeps them all |
| Signup.WithEmailDefaults | sitegate/signup_flows/classic.py:118-119 | by default the e-mail flow validates domains and does not verify e-mail |
| Signup.WithEmailFlowArgsTyped | sitegate/signup_flows/classic.py:124-129 | the changed arguments keep `template` and `widget_attrs` |
| Signup.NewWithEmailFlow | sitegate/signup_flows/classic.py:121-143 | the flow gets the adjusted arguments and schedules mail iff it verifies e-mail |
| Signup.SendEmail | sitegate/signup_flows/classic.py:145-154 | without scheduling nothing happens; with it a confirmation row is added and its link is mailed to the user |
| Signup.FreshCodeValid | sitegate/signup_flows/classic.py:148-149 | the code of a new confirmation is valid |
| Signup.CreatedUsers | sitegate/signup_flows/modern.py:39-45 | the modern user's username and e-mail are both the typed e-mail; the classic user keeps the username and no e-mail; the e-mail user keeps both |
| Signup.ClassicAddUser | sitegate/signup_flows/classic.py:59-60 | a taken username (the uncaught `IntegrityError`) changes nothing; otherwise the user is appended |
| Signup.SaveAndMail | sitegate/signup_flows/classic.py:161-163 | a taken username changes nothing; otherwise the user is appended and, only when scheduling, one confirmation with a fresh code is added and its link mailed to the user |
| Signup.WithEmailAddUser | sitegate/signup_flows/classic.py:156-165 | fails iff the username is taken; otherwise the e-mail user is appended, with the confirmation row and mailed link exactly as `SavedAndMailed` states |
| Signup.ModernAddUser | sitegate/signup_flows/modern.py:39-47 | fails iff the e-mail is taken as a username; otherwise the user named by its e-mail is appended, confirmations and mail as `SavedAndMailed` states |
| Signup.InvitationAddUser | sitegate/signup_flows/modern.py:69-72 | users, confirmations and mail as for the modern flow; the invitation is accepted only when the user was created, after which the code is invalid |
| Signup.AuthenticateSpec | sitegate/flows_base.py:86-92 | authentication finds the user holding the username, and only with the right password |
| Signup.ModernSignupThenSignIn | sitegate/signup_flows/modern.py:35-37 | a user the modern flow created signs in with the e-mail and password |
| Signup.ClassicSignupThenSignIn | sitegate/signup_flows/classic.py:62-64 | a user the classic flows created signs in with the username and password |
| Signin.SigninAlwaysProceeds | sitegate/signin_flows/base.py:13-14 | a sign in flow never answers by itself; it registers its form (or fails on a broken template) |
| Signin.EmailMatchesOne | sitegate/signin_flows/modern.py:21 | exactly one user with the e-mail means one match |
| Signin.EmailMatchesTwo | sitegate/signin_flows/modern.py:21 | two users with the e-mail mean at least two matches |
| Signin.ResolveLoginUnique | sitegate/signin_flows/modern.py:19-23 | one match: the login becomes that user's username, other data unchanged |
| Signin.ResolveLoginAmbiguous | sitegate/signin_flows/modern.py:24-25 | two matches: the form is invalid |
| Signin.ResolveLoginUnchanged | sitegate/signin_flows/modern.py:15-27 | no match, no `@`, or missing data: the cleaned data is unchanged |
| Remotes.NoEmailNoCandidates | sitegate/signin_flows/remotes/base.py:59 | with no e-mail to match, nobody is a candidate |
| Remotes.Candidates | sitegate/signin_flows/remotes/base.py:59 | exactly the active users whose e-mail is among the given ones, in table order |
| Remotes.Attempts | sitegate/signin_flows/remotes/base.py:72-104 | the username/e-mail pairs tried, in order: the given username, each local part, each full e-mail |
| Remotes.FirstFree | sitegate/signin_flows/remotes/base.py:89-104 | the first attempt with a free username, or none when all are taken |
| Remotes.ConstructUserOutcomes | sitegate/signin_flows/remotes/base.py:51-112 | one candidate is reused; otherwise the first free attempt is inserted as an active user with an unusable password, or nothing when all are taken |
| Remotes.ConstructUserRepeat | sitegate/signin_flows/remotes/base.py:59-64 | a second call with the same data after creating a user reuses that user |
| Remotes.ConstructUser | sitegate/signin_flows/remotes/base.py:51-112 | outcome and user table are those `ConstructUserSpec` gives |
| Remotes.SaveAttempts | sitegate/signin_flows/remotes/base.py:72-104 | the three rounds of attempts save the first attempt whose username is free, or nothing when every one collides |
| Remotes.SaveLocalParts | sitegate/signin_flows/remotes/base.py:92-96 | the first loop saves the first free local-part attempt |
| Remotes.SaveFullEmails | sitegate/signin_flows/remotes/base.py:98-104 | the second loop saves the first free full-e-mail attempt |
| Remotes.Redirect | sitegate/signin_flows/remotes/base.py:183-189 | an empty URL redirects to `/`, any other to itself |
| Remotes.AuthFinish | sitegate/signin_flows/remotes/base.py:122-159 | the record is linked to the signed-in or constructed user and stamped; without a user nothing changes; the target is `/` |
| Providers.QueryParamsOf | sitegate/signin_flows/remotes/google.py:60-64 | a URL built from parameters yields exactly those parameters |
| Providers.GoogleUserData | sitegate/signin_flows/remotes/google.py:34-56 | data exists iff the e-mail is present and verified and the id is present; the e-mail is the only one |
| Providers.GoogleUsernameIsLocalPart | sitegate/signin_flows/remotes/google.py:46-50 | the username is the text before the first `@` of the e-mail |
| Providers.GoogleFirstFallbackRepeats | sitegate/signin_flows/remotes/google.py:46-51 | for Google data the first fallback of `construct_user` repeats the first attempt |
| Providers.GoogleSample | sitegate/signin_flows/remotes/google.py:41-54 | the test profile yields the expected data; an unverified one yields none |
| Providers.GoogleAuthStartParams | sitegate/signin_flows/remotes/google.py:58-64 | the authorization URL carries response type, client, state, quoted redirect and quoted scope, in order |
| Providers.YandexUserData | sitegate/signin_flows/remotes/yandex.py:30-45 | data exists iff id, login and e-mails are present |
| Providers.YandexNoEmailRaises | sitegate/signin_flows/remotes/yandex.py:37-43 | an empty `emails` list is passed on, and `construct_user` then raises and signs nobody in |
| Providers.YandexSample | sitegate/signin_flows/remotes/yandex.py:37-43 | the test profile yields the expected data |
| Providers.YandexAuthStartParams | sitegate/signin_flows/remotes/yandex.py:47-50 | the authorization URL carries response type, client, state and popup display, in order |
| LegacySignup.LegacyFlowNameOfSuffixed | sitegate/signup_flows/base.py:23-29 | a class named `<Prefix>Signup` is called by its lower-cased prefix |
| LegacySignup.LegacyFlowNameModern | sitegate/signup_flows/base.py:29 | `ModernSignup` is called `modern` |
| LegacySignup.Pop | sitegate/signup_flows/base.py:45 | `pop` gives the value or the default and removes only that key |
| LegacySignup.LegacyData | sitegate/signup_flows/base.py:42-43 | the form is bound iff the POST's `signup_flow` is the flow name |
| LegacySignup.LegacyForm | sitegate/signup_flows/base.py:45-47 | the form has the class, data, template and hidden flow field `process_request` gives it |
| LegacySignup.AfterFormArgs | sitegate/signup_flows/base.py:45 | `widget_attrs` and `template` are popped, others kept |
| LegacySignup.AfterAdd | sitegate/signup_flows/base.py:52-58 | the success signal fires, sign in follows unless `auto_login` is off, and the redirect target is popped with its default |
| LegacySignup.LegacyPopsArgs | sitegate/signup_flows/base.py:45-56 | the one-shot arguments are gone afterwards; all other arguments are kept |
| LegacySignup.LegacyBinding | sitegate/signup_flows/base.py:39-47 | the form is bound iff the POST names the flow, and carries the hidden field |
| LegacySignup.LegacySuccess | sitegate/signup_flows/base.py:49-58 | a valid bound form whose user was added fires success, signs in by default, and redirects |
| LegacySignup.LegacyFailure | sitegate/signup_flows/base.py:59-60 | a valid form whose `add_user` gives nothing fires only the failure signal |
| LegacySignup.LegacyUnbound | sitegate/signup_flows/base.py:62-64 | an unbound or invalid form fires nothing and the view is called |
| LegacySignup.LegacyProcessOf | sitegate/signup_flows/base.py:31-64 | `process_request`'s outcome in each of its three cases |
| LegacySignup.LegacyFlow.GetForm | sitegate/signup_flows/base.py:83-92 | the form gets the given template, else `form_template`, and the widget attributes |
| LegacySignup.LegacyFlow.PrepareForm | sitegate/signup_flows/base.py:39-47 | builds the legacy form and pops the form arguments |
| LegacySignup.LegacyFlow.FinishSignup | sitegate/signup_flows/base.py:49-58 | pops the login and redirect arguments and reports the events |
| LegacySignup.LegacyFlow.ProcessRequest | sitegate/signup_flows/base.py:31-64 | redirects after a successful sign up, else registers the form under `request.sitesignup` and calls the view |
| LegacySignup.NewLegacyFlow | sitegate/signup_flows/base.py:18-21 | a class without a form raises; otherwise the arguments are kept |
| Decorators.FlowOf | sitegate/decorators.py:17-19 | the `flow` keyword names the class when given, else the builder's default |
| Decorators.FlowKwargs | sitegate/decorators.py:16-17 | the flow gets the decorator's keywords without `flow` |
| Decorators.ConstructedArgsTyped | sitegate/decorators.py:20 | constructing the flow keeps `template` well typed and unchanged |
| Decorators.ServePassesArgs | sitegate/decorators.py:15-32 | the view always receives the arguments it was called with |
| Decorators.FlowStepKeepsOtherForms | sitegate/decorators.py:15-21 | a flow never touches the other flow type's forms |
| Decorators.LayerKeepsOtherForms | sitegate/decorators.py:15-21 | the real flow layer keeps the other type's forms |
| Decorators.ServeKeepsOtherType | sitegate/decorators.py:40-42 | a view decorated only with sign in flows gets no sign up forms, and vice versa |
| Decorators.FlowStepOnGet | sitegate/decorators.py:15-21 | on a GET the flow proceeds and registers its form under its name |
| Decorators.StackedThroughFlows | sitegate/decorators.py:15-21 | two stacked flows that both proceed call the view with the inner one's result |
| Decorators.LayerRegistersOnGet | sitegate/decorators.py:15-21 | on a GET the flow layer registers every resolvable flow's form after the ones already there |
| Decorators.StackedForms | sitegate/flows_base.py:66-75 | two registering flows of one type leave both forms, the first one's first |
| Decorators.StackedFlowsOrder | sitegate/tests/test_decorators.py:25-35 | stacking two flows of one type gives the view both forms, the outer decorator's first |
| Decorators.SitegateThroughFlows | sitegate/decorators.py:53-60 | once both flows proceed, a signed-in user is redirected to `/` and an anonymous one reaches the view |
| Decorators.DefaultTemplateOnGet | sitegate/decorators.py:15-21 | without a `template` argument a flow with a form proceeds on a GET |
| Decorators.PairFormsOnGet | sitegate/decorators.py:53-60 | on a GET the sign up and sign in flows leave both kinds of forms |
| Decorators.SitegateAnonymous | sitegate/tests/test_decorators.py:140-154 | an anonymous GET through `sitegate_view` reaches the view with both kinds of forms |
| Decorators.SitegateSignedIn | sitegate/tests/test_decorators.py:140-144 | a signed-in user is redirected to `/` |
| Decorators.RedirectSignedinSpec | sitegate/decorators.py:26-32 | bare use redirects a signed-in user to `/`, a target to that target; an anonymous user reaches the view |
| TemplateTags.TagBuilder | sitegate/templatetags/sitegate.py:43-54 | the tag is accepted iff it has one token or three with `for`, and then the flow name is the third token |
| TemplateTags.SelectNamed | sitegate/templatetags/sitegate.py:25-28 | with a name, a form is found iff the type's forms hold that name; nothing escapes |
| TemplateTags.SelectDefault | sitegate/templatetags/sitegate.py:20-24 | without a name, `ModernSignup` first, else the first form; no forms at all is the escaping `IndexError` |
| TemplateTags.SelectOwnType | sitegate/templatetags/sitegate.py:18 | the node only reads its own flow type's forms |
| TemplateTags.LookupSet | sitegate/templatetags/sitegate.py:36 | a value set in the top frame is what lookup finds |
| TemplateTags.Render | sitegate/templatetags/sitegate.py:16-40 | renders the selected form's template under `<type>_form`, or `''`/`SiteGateError` without a form, and leaves the context as it was |
| TemplateTags.RenderMissing | sitegate/templatetags/sitegate.py:27-33 | without the type's forms the result is `''`, or the error in `DEBUG` |
| Views.ExpireRow | sitegate/views.py:28 | only the row is changed: it is expired and stamped |
| Views.ActivateUser | sitegate/models.py:145-147 | only the user is changed: it becomes active |
| Views.ExpiredCodeInvalid | sitegate/views.py:25-28 | once activated, the code is no longer valid and other codes keep their verdict |
| Views.VerifyEmail | sitegate/views.py:13-38 | a valid code is activated with the success message; any other records the error and changes nothing; the target is `redirect_to` or `/` |
| Views.VerifyTwice | sitegate/views.py:25-33 | verifying the same code a second time fails |
| Views.RowWithCode | sitegate/views.py:47 | the row with the code is found iff some row has it, expired or not |
| Views.ConfirmationRedirect | sitegate/views.py:78-79 | the decrypted `redirect_to`, else the argument, else `/`; empty strings are skipped |
| Views.GenericConfirmation | sitegate/views.py:41-79 | an unknown code or bad signature is a 404; a signal error is recorded; only the verify-email domain with the user's e-mail and an unexpired row activates |

## Left out

- Rendering HTML, the messages framework's storage, sending mail and logging. Only their inputs are modelled: the message kinds, the mailed user, subject and link.
- Framework services are parameters:
  - `authenticate`, through a model over the user table;
  - `login`;
  - template rendering;
  - URL quoting and `reverse`;
  - `decrypt_data` and the signal receivers of `sig_generic_confirmation_received`.
- Django's `DEBUG`, `SIGNUP_VERIFY_EMAIL_GENERIC_VIEW_DOMAIN_ARG` and the other settings are parameters or constants.
- `USERNAME_FIELD` is taken to be `username` and the e-mail field to be `email`, as for Django's default user model.
- `DecoratorBuilder` (in `sitegate/utils.py`) is not part of this model. How it tells bare decoration from decoration with arguments is left out; the view tree is given directly.
- Decorators.RedirectSignedinSpec: the keyword arguments passed on to `redirect` are not modelled.
- Decorators.FlowStep: the flow's `handle_form_valid` is a parameter, because sign up flows built on `FlowsBase` do not define it in the code shown.
- Lower-casing is ASCII only; no Unicode case folding.
- The uuid4 supply must eventually yield an unused code. The source would otherwise loop for ever.
- Transactions (`atomic`), concurrency and the database's own ordering of query results are left out. Tables keep insertion order.
- Remotes.AuthFinish: `auth_finish` runs `construct_user` inside `atomic()`, and `save()` sets no savepoint. On a database where a failed INSERT aborts the enclosing transaction (PostgreSQL), the attempts after the first collision cannot save. The first-free-attempt outcome holds only where a failed INSERT leaves the transaction usable.
- Signup.ClassicAddUser, Signup.WithEmailAddUser, Signup.ModernAddUser, Signup.InvitationAddUser: `None` stands for the `IntegrityError` of `user.save()`, which these flows do not catch; the request then fails with that exception rather than reporting a failed sign up.
- Remotes.ConstructUser: the only exception modelled is the `IndexError` of an empty e-mail list (`Raised`); `auth_finish` then redirects without a user.
- The remote services' HTTP calls and JSON parsing are left out. The profiles are given as values.
- The template context holds only form variables.
- Views.GenericConfirmation: the `'; '.join` of the validation messages is kept as the list of messages.
- South and Django migrations, the admin, and the test application are not modelled.
