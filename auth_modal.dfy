/** The login/register modal: a form object written field by field, the
    request body built from it, the endpoint, the mode toggle, and how the
    server's replies end the submit. */
module AuthModal {
  import opened Common
  import opened Json
  import AuthContext

  const FormKeys: set<string> := {"name", "email", "password", "bio", "avatar", "banner", "venueManager"}
  /** Every key a request body can hold. */
  const BodyKeys: set<string> := {"email", "password", "name", "bio", "venueManager", "avatar", "banner"}
  /** The text inputs the modal renders; the checkbox is "venueManager". */
  const TextInputs: set<string> := {"name", "bio", "avatar.url", "avatar.alt", "banner.url", "banner.alt", "email", "password"}

  const AuthFailedMessage := "Authentication failed"
  const LoginFailedMessage := "Login failed"

  const EmptyImage := Obj(map["url" := Str(""), "alt" := Str("")])

  function InitialForm(): (f: Object)
    ensures WellFormedForm(f)
  {
    map["name" := Str(""), "email" := Str(""), "password" := Str(""), "bio" := Str(""),
        "avatar" := EmptyImage, "banner" := EmptyImage, "venueManager" := Bool(false)]
  }

  /** An `{ url, alt }` object holding two strings. */
  predicate IsImage(v: Value)
  {
    v.Obj? && v.fields.Keys == {"url", "alt"} && v.fields["url"].Str? && v.fields["alt"].Str?
  }

  /** The shape the form keeps: its seven keys, strings, two images and a flag. */
  predicate WellFormedForm(f: Object)
  {
    f.Keys == FormKeys
    && f["name"].Str? && f["email"].Str? && f["password"].Str? && f["bio"].Str?
    && IsImage(f["avatar"]) && IsImage(f["banner"]) && f["venueManager"].Bool?
  }

  /** The inputs the browser can deliver: the eight text inputs, and the checkbox. */
  predicate RenderedInput(name: string, isCheckbox: bool)
  {
    if isCheckbox then name == "venueManager" else name in TextInputs
  }

  /** Where `handleInputChange` writes. */
  datatype Route = SetFlag(key: string) | SetNested(parent: string, child: string) | SetField(key: string)
  {
    function Key(): string
    {
      if SetNested? then parent else key
    }
  }

  /** A checkbox sets a flag; a name mentioning "avatar" or "banner" is split
      at "." into parent and child (a missing child is the key "undefined");
      any other name is a top-level field. */
  function RouteOf(name: string, isCheckbox: bool): (r: Route)
    ensures isCheckbox ==> r == SetFlag(name)
    ensures !isCheckbox && !Contains(name, "avatar") && !Contains(name, "banner") ==> r == SetField(name)
    ensures r.SetNested? <==> !isCheckbox && (Contains(name, "avatar") || Contains(name, "banner"))
    ensures r.SetNested? ==> '.' !in r.parent
  {
    if isCheckbox then SetFlag(name)
    else if Contains(name, "avatar") || Contains(name, "banner") then
      var pieces := Split(name, '.');
      assert pieces[0] in pieces;
      SetNested(pieces[0], if |pieces| > 1 then pieces[1] else "undefined")
    else SetField(name)
  }

  /** A substring of the head is a substring of any extension of it. */
  lemma {:induction false} ContainsExtend(s: string, t: string, sub: string)
    requires Contains(s, sub)
    ensures Contains(s + t, sub)
    decreases |s|
  {
    assert (s + t)[..|sub|] == s[..|sub|];
    if s[..|sub|] != sub {
      assert (s + t)[1..] == s[1..] + t;
      ContainsExtend(s[1..], t, sub);
    }
  }

  /** "parent.child" with a parent mentioning "avatar" or "banner" writes that child of that parent. */
  lemma NestedRoute(parent: string, child: string)
    requires '.' !in parent && '.' !in child
    requires Contains(parent, "avatar") || Contains(parent, "banner")
    ensures RouteOf(parent + "." + child, false) == SetNested(parent, child)
  {
    var name := parent + "." + child;
    if Contains(parent, "avatar") {
      ContainsExtend(parent, "." + child, "avatar");
    } else {
      ContainsExtend(parent, "." + child, "banner");
    }
    assert name == parent + ['.'] + child;
    SplitPrefix(parent, child, '.');
    SplitNoSeparator(child, '.');
  }

  /** Writing `value` (or `checked`, for a flag) where a route points. */
  function ApplyRoute(f: Object, route: Route, value: string, checked: bool): Object
  {
    match route
    case SetFlag(k) => f[k := Bool(checked)]
    case SetField(k) => f[k := Str(value)]
    case SetNested(parent, child) => f[parent := Obj(Spread(Get(f, parent))[child := Str(value)])]
  }

  /** The updater of `handleInputChange`. */
  function ApplyInput(f: Object, name: string, value: string, isCheckbox: bool, checked: bool): (r: Object)
    ensures r.Keys == f.Keys + {RouteOf(name, isCheckbox).Key()}
    ensures forall k :: k in f && k != RouteOf(name, isCheckbox).Key() ==> r[k] == f[k]
    ensures isCheckbox ==> r[name] == Bool(checked)
    ensures RouteOf(name, isCheckbox).SetField? ==> r[name] == Str(value)
    ensures RouteOf(name, isCheckbox).SetNested? ==>
              var route := RouteOf(name, isCheckbox);
              var before := Spread(Get(f, route.parent));
              r[route.parent] == Obj(before[route.child := Str(value)])
  {
    ApplyRoute(f, RouteOf(name, isCheckbox), value, checked)
  }

  /** The four image inputs write a child "url" or "alt" of "avatar" or "banner". */
  lemma ImageInputRoute(name: string)
    requires name in {"avatar.url", "avatar.alt", "banner.url", "banner.alt"}
    ensures RouteOf(name, false) == SetNested(name[..6], name[7..])
    ensures name[..6] in {"avatar", "banner"} && name[7..] in {"url", "alt"}
  {
    var parent := name[..6];
    var child := name[7..];
    assert name == parent + "." + child;
    assert Contains(parent, parent);
    NestedRoute(parent, child);
  }

  /** Every character of a found substring occurs in the string. */
  lemma {:induction false} ContainsChars(s: string, sub: string, i: nat)
    requires Contains(s, sub) && i < |sub|
    ensures sub[i] in s
    decreases |s|
  {
    if s[..|sub|] == sub {
      assert s[i] == sub[i];
    } else {
      ContainsChars(s[1..], sub, i);
      assert forall c :: c in s[1..] ==> c in s;
    }
  }

  /** The other text inputs mention neither "avatar" nor "banner". */
  lemma PlainInputRoute(name: string)
    requires name in {"name", "bio", "email", "password"}
    ensures RouteOf(name, false) == SetField(name)
  {
    if name == "password" {
      if Contains(name, "avatar") {
        ContainsChars(name, "avatar", 1);
        assert false;
      }
      if Contains(name, "banner") {
        ContainsChars(name, "banner", 0);
        assert false;
      }
    }
  }

  /** Writing "url" or "alt" of an image keeps it an image. */
  lemma ImageChildKeepsImage(v: Value, child: string, value: string)
    requires IsImage(v) && child in {"url", "alt"}
    ensures IsImage(Obj(Spread(v)[child := Str(value)]))
  {
  }

  /** Writing one form key with a value of the kind that key holds keeps the form's shape. */
  lemma WriteKeepsShape(f: Object, key: string, v: Value)
    requires WellFormedForm(f) && key in FormKeys
    requires key == "avatar" || key == "banner" ==> IsImage(v)
    requires key == "venueManager" ==> v.Bool?
    requires key in {"name", "email", "password", "bio"} ==> v.Str?
    ensures WellFormedForm(f[key := v])
  {
    var r := f[key := v];
    assert r.Keys == FormKeys;
  }

  /** The routes of the rendered inputs keep the form's shape. */
  lemma RouteKeepsShape(f: Object, route: Route, value: string, checked: bool)
    requires WellFormedForm(f)
    requires || route == SetFlag("venueManager")
             || (route.SetField? && route.key in {"name", "bio", "email", "password"})
             || (route.SetNested? && route.parent in {"avatar", "banner"} && route.child in {"url", "alt"})
    ensures WellFormedForm(ApplyRoute(f, route, value, checked))
  {
    match route
    case SetFlag(k) => WriteKeepsShape(f, k, Bool(checked));
    case SetField(k) => WriteKeepsShape(f, k, Str(value));
    case SetNested(parent, child) =>
      ImageChildKeepsImage(f[parent], child, value);
      WriteKeepsShape(f, parent, Obj(Spread(f[parent])[child := Str(value)]));
  }

  /** Every input the modal renders keeps the form's shape. */
  lemma RenderedInputKeepsShape(f: Object, name: string, value: string, isCheckbox: bool, checked: bool)
    requires WellFormedForm(f) && RenderedInput(name, isCheckbox)
    ensures WellFormedForm(ApplyInput(f, name, value, isCheckbox, checked))
  {
    if !isCheckbox {
      if name in {"avatar.url", "avatar.alt", "banner.url", "banner.alt"} {
        ImageInputRoute(name);
      } else {
        PlainInputRoute(name);
      }
    }
    RouteKeepsShape(f, RouteOf(name, isCheckbox), value, checked);
  }

  /** Whether key `k` goes into the request body, as the submit handler decides it. */
  predicate Included(form: Object, isRegistering: bool, k: string)
    requires WellFormedForm(form)
  {
    k == "email" || k == "password"
    || (isRegistering &&
        (k == "name"
         || (k == "bio" && form["bio"].Truthy())
         || (k == "venueManager" && form["venueManager"].Truthy())
         || (k == "avatar" && !IsBlank(form["avatar"].fields["url"].s))
         || (k == "banner" && !IsBlank(form["banner"].fields["url"].s))))
  }

  /** The body object for an image: its URL, and its alt text or "". */
  function ImageBody(v: Value): (b: Value)
    requires IsImage(v)
    ensures IsImage(b) && b.fields["url"] == v.fields["url"] && b.fields["alt"] == v.fields["alt"]
  {
    Obj(map["url" := v.fields["url"], "alt" := Str(OrElse(v.fields["alt"].s, ""))])
  }

  /** The value an included key carries. */
  function BodyValue(form: Object, k: string): Value
    requires WellFormedForm(form) && k in BodyKeys
  {
    if k == "avatar" || k == "banner" then ImageBody(form[k]) else form[k]
  }

  /** The included keys among `keys`, each with its value. */
  function Partial(form: Object, isRegistering: bool, keys: set<string>): Object
    requires WellFormedForm(form) && keys <= BodyKeys
  {
    map k | k in keys && Included(form, isRegistering, k) :: BodyValue(form, k)
  }

  /** Considering one more key adds it exactly when it is included. */
  lemma PartialAdd(form: Object, isRegistering: bool, keys: set<string>, k: string)
    requires WellFormedForm(form) && keys <= BodyKeys && k in BodyKeys
    ensures Partial(form, isRegistering, keys + {k}) ==
            if Included(form, isRegistering, k) then Partial(form, isRegistering, keys)[k := BodyValue(form, k)]
            else Partial(form, isRegistering, keys)
  {
    var before, after := Partial(form, isRegistering, keys), Partial(form, isRegistering, keys + {k});
    if Included(form, isRegistering, k) {
      assert after.Keys == before.Keys + {k};
    } else {
      assert after.Keys == before.Keys;
    }
  }

  /** The request body: the included keys, each with its value. */
  function RequestBody(form: Object, isRegistering: bool): (body: Object)
    requires WellFormedForm(form)
    ensures body.Keys <= BodyKeys
    ensures !isRegistering ==> body.Keys == {"email", "password"}
    ensures "email" in body && body["email"] == form["email"] && "password" in body && body["password"] == form["password"]
    ensures isRegistering ==> "name" in body && body["name"] == form["name"]
    ensures "bio" in body <==> isRegistering && form["bio"].s != ""
    ensures "bio" in body ==> body["bio"] == form["bio"]
    ensures "venueManager" in body <==> isRegistering && form["venueManager"] == Bool(true)
    ensures "venueManager" in body ==> body["venueManager"] == Bool(true)
    ensures "avatar" in body <==> isRegistering && !IsBlank(form["avatar"].fields["url"].s)
    ensures "avatar" in body ==> body["avatar"] == ImageBody(form["avatar"])
    ensures "banner" in body <==> isRegistering && !IsBlank(form["banner"].fields["url"].s)
    ensures "banner" in body ==> body["banner"] == ImageBody(form["banner"])
  {
    Partial(form, isRegistering, BodyKeys)
  }

  /** The submit handler's `requestBody`: start from email and password, and in
      register mode add each optional field under its condition. */
  method BuildRequestBody(form: Object, isRegistering: bool) returns (body: Object)
    requires WellFormedForm(form)
    ensures body == RequestBody(form, isRegistering)
  {
    ghost var keys: set<string> := {"email", "password"};
    body := map["email" := form["email"], "password" := form["password"]];
    assert body == Partial(form, isRegistering, keys) by {
      assert Partial(form, isRegistering, keys).Keys == keys;
    }
    if isRegistering {
      PartialAdd(form, isRegistering, keys, "name");
      keys := keys + {"name"};
      body := body["name" := form["name"]];
      PartialAdd(form, isRegistering, keys, "bio");
      keys := keys + {"bio"};
      if form["bio"].Truthy() {
        body := body["bio" := form["bio"]];
      }
      PartialAdd(form, isRegistering, keys, "venueManager");
      keys := keys + {"venueManager"};
      if form["venueManager"].Truthy() {
        body := body["venueManager" := form["venueManager"]];
      }
      PartialAdd(form, isRegistering, keys, "avatar");
      keys := keys + {"avatar"};
      if !IsBlank(form["avatar"].fields["url"].s) {
        body := body["avatar" := ImageBody(form["avatar"])];
      }
      PartialAdd(form, isRegistering, keys, "banner");
      keys := keys + {"banner"};
      if !IsBlank(form["banner"].fields["url"].s) {
        body := body["banner" := ImageBody(form["banner"])];
      }
      assert keys == BodyKeys;
    } else {
      LoginBody(form, keys);
    }
  }

  /** In login mode no key beyond email and password is included. */
  lemma LoginBody(form: Object, keys: set<string>)
    requires WellFormedForm(form) && keys == {"email", "password"}
    ensures Partial(form, false, BodyKeys) == Partial(form, false, keys)
  {
    assert Partial(form, false, BodyKeys).Keys == keys;
  }

  datatype Endpoint = RegisterEndpoint | LoginEndpoint

  function EndpointFor(isRegistering: bool): (e: Endpoint)
    ensures e == RegisterEndpoint <==> isRegistering
  {
    if isRegistering then RegisterEndpoint else LoginEndpoint
  }

  /** A request's reply: parsed, with whether it was ok, the `message` of each
      entry of its `errors` list (when it has one) and `data.accessToken`; or an
      error thrown on the way (a rejected fetch, a body that does not parse, a
      reply without `data`) carrying its own message. */
  datatype Reply =
    | Reply(ok: bool, errors: Option<seq<Option<string>>>, accessToken: string)
    | Thrown(message: string)

  /** `errors?.[0]?.message || fallback`. */
  function FirstErrorOr(errors: Option<seq<Option<string>>>, fallback: string): (m: string)
    ensures errors.Some? && |errors.value| > 0 && errors.value[0].Some? && errors.value[0].value != "" ==>
              m == errors.value[0].value
    ensures !(errors.Some? && |errors.value| > 0 && errors.value[0].Some? && errors.value[0].value != "") ==>
              m == fallback
    ensures fallback != "" ==> m != ""
  {
    if errors.Some? && |errors.value| > 0 && errors.value[0].Some? then OrElse(errors.value[0].value, fallback)
    else fallback
  }

  /** How a submit ends: signed in with the token to store, or an error text. */
  datatype Outcome = SignedIn(token: string) | Failed(message: string)

  /** The submit's end from the first reply and, in register mode, the reply of
      the follow-up login. A thrown error ends the submit with its own message. */
  function SubmitOutcome(isRegistering: bool, first: Reply, login: Reply): (o: Outcome)
    ensures first.Thrown? ==> o == Failed(first.message)
    ensures first.Reply? && !first.ok ==> o == Failed(FirstErrorOr(first.errors, AuthFailedMessage))
    ensures first.Reply? && first.ok && isRegistering && login.Thrown? ==> o == Failed(login.message)
    ensures first.Reply? && first.ok && isRegistering && login.Reply? && !login.ok ==>
              o == Failed(FirstErrorOr(login.errors, LoginFailedMessage))
    ensures o.SignedIn? <==> first.Reply? && first.ok && (isRegistering ==> login.Reply? && login.ok)
    ensures o.SignedIn? && isRegistering ==> login.Reply? && o.token == login.accessToken
    ensures o.SignedIn? && !isRegistering ==> first.Reply? && o.token == first.accessToken
    ensures o.Failed? && o.message == "" ==>
              (first.Thrown? && first.message == "") || (login.Thrown? && login.message == "")
  {
    if first.Thrown? then Failed(first.message)
    else if !first.ok then Failed(FirstErrorOr(first.errors, AuthFailedMessage))
    else if isRegistering then
      if login.Thrown? then Failed(login.message)
      else if !login.ok then Failed(FirstErrorOr(login.errors, LoginFailedMessage))
      else SignedIn(login.accessToken)
    else SignedIn(first.accessToken)
  }

  /** In register mode the register reply's token is never stored. */
  lemma RegisterTokenComesFromLogin(first: Reply, other: Reply, login: Reply)
    requires first.Reply? && other.Reply? && first.ok == other.ok && first.errors == other.errors
    ensures SubmitOutcome(true, first, login) == SubmitOutcome(true, other, login)
  {
  }

  /** In login mode there is no follow-up request: its reply does not matter. */
  lemma LoginModeIgnoresFollowUp(first: Reply, a: Reply, b: Reply)
    ensures SubmitOutcome(false, first, a) == SubmitOutcome(false, first, b)
  {
  }

  class Modal {
    var isRegistering: bool
    var formData: Object
    var error: Option<string>
    var loading: bool
    const auth: AuthContext.Provider

    ghost predicate Valid()
      reads this
    {
      WellFormedForm(formData)
    }

    constructor (auth: AuthContext.Provider)
      ensures Valid() && this.auth == auth
      ensures !isRegistering && formData == InitialForm() && error == None && !loading
    {
      this.auth := auth;
      isRegistering := false;
      formData := InitialForm();
      error, loading := None, false;
    }

    method HandleInputChange(name: string, value: string, isCheckbox: bool, checked: bool)
      requires Valid() && RenderedInput(name, isCheckbox)
      modifies this
      ensures Valid()
      ensures formData == ApplyInput(old(formData), name, value, isCheckbox, checked)
      ensures isRegistering == old(isRegistering) && error == old(error) && loading == old(loading)
    {
      RenderedInputKeepsShape(formData, name, value, isCheckbox, checked);
      formData := ApplyInput(formData, name, value, isCheckbox, checked);
    }

    /** The "Register"/"Login" link under the form. */
    method ToggleMode()
      modifies this
      ensures isRegistering == !old(isRegistering)
      ensures formData == old(formData) && error == old(error) && loading == old(loading)
    {
      isRegistering := !isRegistering;
    }

    /** The synchronous start of `handleSubmit`: the request to send. */
    method StartSubmit() returns (endpoint: Endpoint, body: Object)
      requires Valid()
      modifies this
      ensures Valid() && loading && error == None
      ensures isRegistering == old(isRegistering) && formData == old(formData)
      ensures endpoint == EndpointFor(isRegistering)
      ensures body == RequestBody(formData, isRegistering)
    {
      loading := true;
      error := None;
      body := BuildRequestBody(formData, isRegistering);
      endpoint := if isRegistering then RegisterEndpoint else LoginEndpoint;
    }

    /** The end of `handleSubmit` once the replies are in; `stored` is the
        token written to storage. On success the context is told and closes the modal. */
    method FinishSubmit(first: Reply, login: Reply) returns (stored: Option<string>)
      requires Valid()
      modifies this, auth
      ensures Valid() && !loading
      ensures isRegistering == old(isRegistering) && formData == old(formData)
      ensures SubmitOutcome(isRegistering, first, login).SignedIn? ==>
                stored == Some(SubmitOutcome(isRegistering, first, login).token)
                && !auth.isAuthModalOpen && error == old(error)
      ensures SubmitOutcome(isRegistering, first, login).Failed? ==>
                stored == None && error == Some(SubmitOutcome(isRegistering, first, login).message)
                && auth.isAuthModalOpen == old(auth.isAuthModalOpen)
    {
      var outcome := SubmitOutcome(isRegistering, first, login);
      stored := None;
      match outcome {
        case SignedIn(token) =>
          stored := Some(token);
          auth.HandleLoginSuccess();
          auth.CloseAuthModal();
        case Failed(message) =>
          error := Some(message);
      }
      loading := false;
    }
  }
}
