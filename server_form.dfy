/**
 * The server component (LoginForm): its constructor creates the three child
 * components through the one-shot create hooks, stores the trimmed context
 * path, registers the Enter shortcut, the login request handler and the RPC
 * handler, and only then marks itself initialized.
 */
module ServerForm {
  import opened Wrappers
  import Dom

  const ALREADY_INITIALIZED: string := "Already initialized. Call the getter method instead of the create method."

  // ShortcutAction.KeyCode.ENTER
  const SHORTCUT_ENTER: int := 13

  // What the request handler writes for the login URL.
  const SUCCESS_CONTENT_TYPE: string := "text/html; charset=utf-8"
  const SUCCESS_CACHE_TIME: int := -1
  const SUCCESS_BODY: string := "<html>Success</html>"

  // ---------------------------------------------------------------------------
  // Pure parts: the context path and the request handler
  // ---------------------------------------------------------------------------

  predicate EndsWithSlash(s: string) {
    |s| > 0 && s[|s| - 1] == '/'
  }

  /** A context path ending in "/" loses exactly that last character; any other is kept. */
  function TrimContextPath(contextPath: string): (r: string)
    ensures EndsWithSlash(contextPath) ==> r + "/" == contextPath
    ensures !EndsWithSlash(contextPath) ==> r == contextPath
  {
    if EndsWithSlash(contextPath) then contextPath[..|contextPath| - 1] else contextPath
  }

  /**
   * Only one slash is removed: a path ending in "//" still ends in "/" after
   * trimming, so trimming is not idempotent.
   */
  lemma TrimRemovesOneSlash(s: string)
    ensures TrimContextPath(s + "//") == s + "/"
    ensures TrimContextPath(TrimContextPath(s + "//")) == s
  {
  }

  /**
   * What the request handler does with a request: whether it handled it, and
   * what it wrote to the response (content type, cache time, body).
   */
  datatype Response = Response(handled: bool, contentType: Option<string>, cacheTime: Option<int>, body: string)

  /** The handler answers the login URL, and only it, with the static success page; otherwise it writes nothing. */
  function HandleRequest(pathInfo: Option<string>): (r: Response)
    ensures r.handled <==> pathInfo == Some(Dom.LOGIN_URL)
    ensures r.handled ==>
      r.contentType == Some(SUCCESS_CONTENT_TYPE) && r.cacheTime == Some(SUCCESS_CACHE_TIME) && r.body == SUCCESS_BODY
    ensures !r.handled ==> r.contentType == None && r.cacheTime == None && r.body == ""
  {
    if pathInfo == Some(Dom.LOGIN_URL) then
      Response(true, Some(SUCCESS_CONTENT_TYPE), Some(SUCCESS_CACHE_TIME), SUCCESS_BODY)
    else
      Response(false, None, None, "")
  }

  /**
   * The hidden client form posts to the absolute path /loginForm, while the
   * handler tests the request's path info. A servlet container splits a
   * request path into context path + servlet path + path info; so the form's
   * post is handled exactly when the application is deployed at the root
   * context with a servlet mapped to the root, i.e. both prefixes are empty.
   */
  lemma FormPostHandledOnlyAtRoot(contextPath: string, servletPath: string, pathInfo: string)
    requires contextPath + servletPath + pathInfo == Dom.FORM_ACTION
    ensures HandleRequest(Some(pathInfo)).handled <==> contextPath == "" && servletPath == ""
  {
    if pathInfo == Dom.LOGIN_URL {
      assert |contextPath + servletPath| == 0;
    }
  }

  // ---------------------------------------------------------------------------
  // Components, session and form
  // ---------------------------------------------------------------------------

  datatype ComponentKind = TextFieldComponent | PasswordFieldComponent | ButtonComponent

  /** The calls the form makes to the hooks its subclass implements. */
  datatype HookCall = LoginCall | SubmitCompletedCall

  /** The default user-name field: a text field "User name" that asked for the focus. */
  predicate DefaultUserNameField(c: Component)
    reads c
  {
    c.kind == TextFieldComponent && c.caption == "User name" && c.clickListener == null && c.focusRequested
  }

  /** The default password field: a password field "Password". */
  predicate DefaultPasswordField(c: Component)
    reads c
  {
    c.kind == PasswordFieldComponent && c.caption == "Password" && c.clickListener == null && !c.focusRequested
  }

  /** The default login button of `form`: a button "Login" whose click calls the form's `login()`. */
  predicate DefaultLoginButton(c: Component, form: LoginForm)
    reads c
  {
    c.kind == ButtonComponent && c.caption == "Login" && c.clickListener == form && !c.focusRequested
  }

  /**
   * A server-side child component. `clickListener` is the form whose
   * `login()` a click on the component calls (the default login button's
   * ClickListener), or null.
   */
  class Component {
    const kind: ComponentKind
    const caption: string
    const clickListener: LoginForm?
    var focusRequested: bool

    constructor (kind: ComponentKind, caption: string, clickListener: LoginForm?)
      ensures this.kind == kind && this.caption == caption && this.clickListener == clickListener
      ensures !focusRequested
    {
      this.kind, this.caption, this.clickListener := kind, caption, clickListener;
      focusRequested := false;
    }

    /** `focus()`: asks for the keyboard focus. */
    method Focus()
      modifies this
      ensures focusRequested
    {
      focusRequested := true;
    }

    /** A click on the component: its click listener, if any, calls the form's `login()`. */
    method Click()
      modifies clickListener
      ensures clickListener != null ==> clickListener.hookCalls == old(clickListener.hookCalls) + [LoginCall]
      ensures clickListener != null ==> clickListener.Slots() == old(clickListener.Slots())
      ensures clickListener != null ==> clickListener.initialized == old(clickListener.initialized)
      ensures clickListener != null ==> clickListener.contextPath == old(clickListener.contextPath)
      ensures clickListener != null ==> clickListener.shortcutKeyCodes == old(clickListener.shortcutKeyCodes)
      ensures clickListener != null ==> clickListener.rpcRegistered == old(clickListener.rpcRegistered)
      ensures clickListener != null ==> clickListener.registeredHandler == old(clickListener.registeredHandler)
    {
      if clickListener != null {
        clickListener.Login();
      }
    }
  }

  /** Stands for the anonymous request handler of `LoginForm`; its decision is `HandleRequest`. */
  class RequestHandler {
    constructor ()
    {
    }
  }

  /** The session's list of request handlers. */
  class Session {
    var requestHandlers: seq<RequestHandler>

    constructor ()
      ensures requestHandlers == []
    {
      requestHandlers := [];
    }

    /**
     * `addRequestHandler`: adds the handler, without looking for an equal
     * one, and keeps the others. Where it goes in the list is the
     * framework's choice and is not stated.
     */
    method AddRequestHandler(handler: RequestHandler)
      modifies this
      ensures |requestHandlers| == |old(requestHandlers)| + 1
      ensures handler in requestHandlers
      ensures forall h :: h in old(requestHandlers) ==> h in requestHandlers
      ensures multiset(requestHandlers) == multiset(old(requestHandlers)) + multiset{handler}
    {
      requestHandlers := requestHandlers + [handler];
    }
  }

  /** The login form. The three slots are the component references of the shared state. */
  class LoginForm {
    var initialized: bool
    var userNameField: Component?
    var passwordField: Component?
    var loginButton: Component?
    var contextPath: string
    var shortcutKeyCodes: seq<int>  // key codes of the shortcut listeners that call login()
    var rpcRegistered: bool
    var hookCalls: seq<HookCall>
    ghost var registeredHandler: RequestHandler?  // the handler this form added to the session

    /** The three slots, as one value. */
    function Slots(): (Component?, Component?, Component?)
      reads this
    {
      (userNameField, passwordField, loginButton)
    }

    /**
     * The constructor runs every create hook while `initialized` is still
     * false, so each slot is filled exactly once with a new component, and
     * sets `initialized` only at the end. It adds one new request handler
     * to the session.
     */
    constructor (requestContextPath: string, session: Session)
      modifies session
      ensures initialized
      ensures userNameField != null && fresh(userNameField) && DefaultUserNameField(userNameField)
      ensures passwordField != null && fresh(passwordField) && DefaultPasswordField(passwordField)
      ensures loginButton != null && fresh(loginButton) && DefaultLoginButton(loginButton, this)
      ensures userNameField != passwordField && passwordField != loginButton && userNameField != loginButton
      ensures contextPath == TrimContextPath(requestContextPath)
      ensures shortcutKeyCodes == [SHORTCUT_ENTER] && rpcRegistered && hookCalls == []
      ensures registeredHandler != null && fresh(registeredHandler)
      ensures |session.requestHandlers| == |old(session.requestHandlers)| + 1
      ensures registeredHandler in session.requestHandlers
      ensures forall h :: h in old(session.requestHandlers) ==> h in session.requestHandlers
      ensures multiset(session.requestHandlers) == multiset(old(session.requestHandlers)) + multiset{registeredHandler}
    {
      initialized := false;
      userNameField, passwordField, loginButton := null, null, null;
      contextPath := "";
      shortcutKeyCodes, rpcRegistered, hookCalls := [], false, [];
      registeredHandler := null;
      new;
      FillSlots();
      Register(requestContextPath, session);
      initialized := true;
    }

    /** The first half of the constructor: each create hook fills its slot while `initialized` is false. */
    method FillSlots()
      requires !initialized
      modifies this`userNameField, this`passwordField, this`loginButton
      ensures userNameField != null && fresh(userNameField) && DefaultUserNameField(userNameField)
      ensures passwordField != null && fresh(passwordField) && DefaultPasswordField(passwordField)
      ensures loginButton != null && fresh(loginButton) && DefaultLoginButton(loginButton, this)
    {
      var u := CreateUserNameField();
      userNameField := u.value;
      var p := CreatePasswordField();
      passwordField := p.value;
      var b := CreateLoginButton();
      loginButton := b.value;
    }

    /**
     * The second half of the constructor: the trimmed context path, the Enter
     * shortcut, one new request handler added to the session, and the RPC.
     */
    method Register(requestContextPath: string, session: Session)
      modifies this`contextPath, this`shortcutKeyCodes, this`rpcRegistered, this`registeredHandler, session
      ensures contextPath == TrimContextPath(requestContextPath)
      ensures shortcutKeyCodes == old(shortcutKeyCodes) + [SHORTCUT_ENTER] && rpcRegistered
      ensures registeredHandler != null && fresh(registeredHandler)
      ensures |session.requestHandlers| == |old(session.requestHandlers)| + 1
      ensures registeredHandler in session.requestHandlers
      ensures forall h :: h in old(session.requestHandlers) ==> h in session.requestHandlers
      ensures multiset(session.requestHandlers) == multiset(old(session.requestHandlers)) + multiset{registeredHandler}
    {
      contextPath := TrimContextPath(requestContextPath);
      shortcutKeyCodes := shortcutKeyCodes + [SHORTCUT_ENTER];
      var handler := new RequestHandler();
      session.AddRequestHandler(handler);
      registeredHandler := handler;
      rpcRegistered := true;
    }

    /** `checkInitialized`: throws IllegalStateException once the form is initialized. */
    function CheckInitialized(): (o: Outcome<Exception>)
      reads this
      ensures o.Fail? <==> initialized
      ensures o.Fail? ==> o.error == IllegalStateException(ALREADY_INITIALIZED)
    {
      if initialized then Fail(IllegalStateException(ALREADY_INITIALIZED)) else Pass
    }

    /** The default user-name field: a text field "User name" that asks for the focus. */
    method CreateUserNameField() returns (r: Result<Component, Exception>)
      ensures r.Failure? <==> initialized
      ensures r.Failure? ==> r.error == IllegalStateException(ALREADY_INITIALIZED)
      ensures r.Success? ==>
        fresh(r.value) && DefaultUserNameField(r.value)
    {
      var check := CheckInitialized();
      if check.Fail? {
        return Failure(check.error);
      }
      var field := new Component(TextFieldComponent, "User name", null);
      field.Focus();
      r := Success(field);
    }

    /** The default password field: a password field "Password". */
    method CreatePasswordField() returns (r: Result<Component, Exception>)
      ensures r.Failure? <==> initialized
      ensures r.Failure? ==> r.error == IllegalStateException(ALREADY_INITIALIZED)
      ensures r.Success? ==>
        fresh(r.value) && DefaultPasswordField(r.value)
    {
      var check := CheckInitialized();
      if check.Fail? {
        return Failure(check.error);
      }
      var field := new Component(PasswordFieldComponent, "Password", null);
      r := Success(field);
    }

    /** The default login button: a button "Login" whose click calls this form's `login()`. */
    method CreateLoginButton() returns (r: Result<Component, Exception>)
      ensures r.Failure? <==> initialized
      ensures r.Failure? ==> r.error == IllegalStateException(ALREADY_INITIALIZED)
      ensures r.Success? ==>
        fresh(r.value) && DefaultLoginButton(r.value, this)
    {
      var check := CheckInitialized();
      if check.Fail? {
        return Failure(check.error);
      }
      var button := new Component(ButtonComponent, "Login", this);
      r := Success(button);
    }

    /** The abstract `login()` hook: the model records the call. */
    method Login()
      modifies this`hookCalls
      ensures hookCalls == old(hookCalls) + [LoginCall]
      ensures Slots() == old(Slots()) && initialized == old(initialized)
    {
      hookCalls := hookCalls + [LoginCall];
    }

    /** The Enter shortcut listener's action. */
    method HandleShortcutAction()
      modifies this`hookCalls
      ensures hookCalls == old(hookCalls) + [LoginCall]
      ensures Slots() == old(Slots()) && initialized == old(initialized)
    {
      Login();
    }

    /** The registered RPC's `submitCompleted()`: it calls the `submitCompleted()` hook and nothing else. */
    method SubmitCompletedRpc()
      modifies this`hookCalls
      ensures hookCalls == old(hookCalls) + [SubmitCompletedCall]
    {
      hookCalls := hookCalls + [SubmitCompletedCall];
    }

    method GetUserNameField() returns (r: Component?)
      ensures r == userNameField
    {
      r := userNameField;
    }

    method GetPasswordField() returns (r: Component?)
      ensures r == passwordField
    {
      r := passwordField;
    }

    method GetLoginButton() returns (r: Component?)
      ensures r == loginButton
    {
      r := loginButton;
    }
  }

  /**
   * After construction every create hook refuses with the "Already
   * initialized" error, the getter returns the button the constructor
   * stored, and a click on it calls `login()` exactly once.
   */
  method ConstructedForm(session: Session)
    returns (form: LoginForm, u: Result<Component, Exception>, p: Result<Component, Exception>,
             b: Result<Component, Exception>, button: Component?)
    modifies session
    ensures form.initialized && form.contextPath == "/app"
    ensures u == Failure(IllegalStateException(ALREADY_INITIALIZED))
    ensures p == Failure(IllegalStateException(ALREADY_INITIALIZED))
    ensures b == Failure(IllegalStateException(ALREADY_INITIALIZED))
    ensures button == form.loginButton && button != null && button.clickListener == form
    ensures form.hookCalls == [LoginCall]
  {
    form := new LoginForm("/app/", session);
    u := form.CreateUserNameField();
    p := form.CreatePasswordField();
    b := form.CreateLoginButton();
    button := form.GetLoginButton();
    button.Click();
  }

  /** Two forms in one session add two distinct handlers: registration is not deduplicated. */
  method TwoFormsOneSession(session: Session) returns (first: LoginForm, second: LoginForm)
    modifies session
    ensures |session.requestHandlers| == |old(session.requestHandlers)| + 2
    ensures first.registeredHandler != null && second.registeredHandler != null
    ensures first.registeredHandler != second.registeredHandler
    ensures first.registeredHandler in session.requestHandlers && second.registeredHandler in session.requestHandlers
  {
    first := new LoginForm("", session);
    second := new LoginForm("", session);
  }
}
