# Verified model of the vaadin-loginform component

The component is a Vaadin login form that browser password managers can recognise. The server
component (`LoginForm`) creates a user-name field, a password field and a login button. The client
connector wraps them in a real HTML form that posts to `/loginForm`. On Enter or on a button click,
the connector submits that hidden form, flushes the field values into the shared state and notifies
the server over RPC. A session request handler answers the dummy POST with a static success page.

This project models, over plain values, the parts of that glue with their own logic:

- `FormConnector` (form_connector.dfy) models `LoginFormConnector`:
  - the Enter-key filter of `SubmitKeyHandler`, as a pure function `KeyDown`, its extension
    `Logins` to whole key sequences, and a class with the `previousKeyCode` field;
  - the effect order of `login()` and `valuesChanged()`, as a trace of `Dom.Effect` values;
  - the attribute rule of `configureTextField` on a DOM element, as a `map<string, string>`;
  - which button connectors get a click handler.
- `ContainerConnector` (container_connector.dfy) models the older `LoginFormContainerConnector`:
  the id is always overwritten, Enter flushes and then submits, a click submits and a focus
  flushes. It also proves how the two variants differ.
- `ServerForm` (server_form.dfy) models `LoginForm`:
  - the constructor, which runs the three one-shot `create*` hooks, trims the context path and
    registers the Enter shortcut, the request handler and the RPC handler;
  - `checkInitialized`, the getters, the request handler as a function of the path info;
  - the listeners that call the `login()` and `submitCompleted()` hooks.
- `Dom` (dom.dfy) holds the shared client values: the GWT key codes (Enter 13, PageUp 33,
  PageDown 34, Up 38, Down 40), the form-panel constants (id `loginForm`, method post, action
  `/loginForm`), the text-field and button connectors, and the effects.
- `Wrappers` (wrappers.dfy) holds the `Option`, `Result` and `Outcome` types used for Java's
  null and exceptions.

A null DOM id is an attribute map without an `"id"` key. A Java exception is a `Failure` / `Fail`
result. A Java object the code updates in place is a Dafny class.

## Model

| member | source | states |
|---|---|---|
| FormConnector.IsInAutoComplete | src/main/java/com/ejt/vaadin/loginform/shared/LoginFormConnector.java:170-180 | The previous key counts as dropdown navigation iff it is PageUp, PageDown, Up or Down. Enter and the initial 0 never count. |
| FormConnector.KeyDown | src/main/java/com/ejt/vaadin/loginform/shared/LoginFormConnector.java:157-180 | Enter logs in exactly when the previous key is not PageUp, PageDown, Up or Down. A swallowed Enter and every other key become the new previous key. A login leaves the previous key unchanged. Afterwards the handler is in dropdown mode iff the key just pressed is a navigation key. |
| FormConnector.Logins | src/main/java/com/ejt/vaadin/loginform/shared/LoginFormConnector.java:152-181 | A run of key-down events gives one login flag per key. |
| FormConnector.LoginsCharacterised | src/main/java/com/ejt/vaadin/loginform/shared/LoginFormConnector.java:157-180 | In any key sequence, key i logs in iff it is Enter and the key before it is not a navigation key. For the first key, the remembered key is used. |
| FormConnector.NonEnterNeverLogsIn | src/main/java/com/ejt/vaadin/loginform/shared/LoginFormConnector.java:165-166 | A key other than Enter never logs in, at any position of a sequence. |
| FormConnector.EnterAfterNavigationSwallowed | src/main/java/com/ejt/vaadin/loginform/shared/LoginFormConnector.java:159-177 | An Enter right after PageUp, PageDown, Up or Down does not log in. |
| FormConnector.SecondEnterLogsIn | src/main/java/com/ejt/vaadin/loginform/shared/LoginFormConnector.java:159-163 | An Enter right after another Enter always logs in. |
| FormConnector.NavigationThenEnterEnter | src/main/java/com/ejt/vaadin/loginform/shared/LoginFormConnector.java:159-179 | After a navigation key, Enter, Enter logs in exactly once, on the second Enter. |
| FormConnector.SubmitKeyHandler.constructor | src/main/java/com/ejt/vaadin/loginform/shared/LoginFormConnector.java:152-154 | A new handler belongs to its connector and starts with previous key 0. |
| FormConnector.SubmitKeyHandler.OnKeyDown | src/main/java/com/ejt/vaadin/loginform/shared/LoginFormConnector.java:157-168 | The new previous key and the login flag are those of KeyDown. The owner's trace grows by one run of login() exactly when the flag is set. |
| FormConnector.NavigateThenSubmit | src/main/java/com/ejt/vaadin/loginform/shared/LoginFormConnector.java:159-179 | A fresh handler given Up, Enter, Enter fires only on the second Enter. The connector's trace grows by exactly one login. |
| FormConnector.HasExternalId | src/main/java/com/ejt/vaadin/loginform/shared/LoginFormConnector.java:102-103 | An external id is present and non-empty. An id starting with "gwt-" is never external. A non-empty id not starting with 'g' always is. |
| FormConnector.ConfiguredAttributes | src/main/java/com/ejt/vaadin/loginform/shared/LoginFormConnector.java:101-107 | The id is replaced only when it is null, empty or starts with "gwt-". name becomes the given id and autocomplete becomes "on". Every other attribute is kept. |
| FormConnector.ConfigureIdempotent | src/main/java/com/ejt/vaadin/loginform/shared/LoginFormConnector.java:101-107 | Configuring a field twice with the same id gives the same attributes as configuring it once. |
| FormConnector.LoginEffects | src/main/java/com/ejt/vaadin/loginform/shared/LoginFormConnector.java:115-119 | login() submits the form first and sends the submitted RPC last, each exactly once. In between it flushes the password field, then the user field. |
| Dom.ValueChangeEffects | src/main/java/com/ejt/vaadin/loginform/shared/LoginFormConnector.java:138-145 | valuesChanged() flushes the password field before the user field and skips a null field. |
| FormConnector.LoginFormConnector.constructor | src/main/java/com/ejt/vaadin/loginform/shared/LoginFormConnector.java:45-47 | A new connector has no resolved fields and an empty trace. |
| FormConnector.LoginFormConnector.OnSubmitComplete | src/main/java/com/ejt/vaadin/loginform/shared/LoginFormConnector.java:64-69 | The submit-complete handler sends the submitCompleted RPC and nothing else. |
| FormConnector.LoginFormConnector.ValuesChanged | src/main/java/com/ejt/vaadin/loginform/shared/LoginFormConnector.java:138-145 | The trace grows by ValueChangeEffects of the current fields. The fields are unchanged. |
| FormConnector.LoginFormConnector.Login | src/main/java/com/ejt/vaadin/loginform/shared/LoginFormConnector.java:115-119 | The trace grows by LoginEffects of the current fields. |
| FormConnector.LoginFormConnector.ConfigureTextField | src/main/java/com/ejt/vaadin/loginform/shared/LoginFormConnector.java:95-113 | A null connector yields null and touches nothing. Otherwise it returns the connector, attaches one fresh handler with previous key 0, and sets the attributes to ConfiguredAttributes. |
| FormConnector.LoginFormConnector.AddSubmitButtonClickHandler | src/main/java/com/ejt/vaadin/loginform/shared/LoginFormConnector.java:121-136 | Exactly a Button or NativeButton connector gets one more click handler. A null or any other connector is left alone. |
| FormConnector.LoginFormConnector.OnLoginButtonClick | src/main/java/com/ejt/vaadin/loginform/shared/LoginFormConnector.java:129-136 | A click on the login button runs login(). |
| FormConnector.LoginFormConnector.OnStateChanged | src/main/java/com/ejt/vaadin/loginform/shared/LoginFormConnector.java:86-93 | The fields become the state's connectors, configured as "username" and then "password". Each field gets one key handler, or two if one connector is used for both. A Button or NativeButton gets one click handler, and no focus handler is added. Nothing is emitted. |
| ContainerConnector.ContainerConfiguredAttributes | src/main/java/com/ejt/vaadin/loginform/shared/LoginFormContainerConnector.java:75-78 | id and name become the given id and autocomplete becomes "on", whatever the old id was. Every other attribute is kept. |
| ContainerConnector.VariantsAgreeUnlessExternalId | src/main/java/com/ejt/vaadin/loginform/shared/LoginFormContainerConnector.java:75-78 | The two connector variants tag a field identically iff it has no external id or its id already is the given one. |
| ContainerConnector.ContainerConfigureIdempotent | src/main/java/com/ejt/vaadin/loginform/shared/LoginFormContainerConnector.java:75-78 | Repeating this variant's configuration changes nothing. |
| ContainerConnector.EnterEffects | src/main/java/com/ejt/vaadin/loginform/shared/LoginFormContainerConnector.java:68-71 | Enter flushes password, then user, with nulls skipped, and then submits the form, once, as the last effect. |
| ContainerConnector.SubmitOrderDiffers | src/main/java/com/ejt/vaadin/loginform/shared/LoginFormContainerConnector.java:68-71 | When some field is present, this variant's first effect differs from LoginFormConnector's: it flushes first where the other submits first. |
| ContainerConnector.LoginFormContainerConnector.constructor | src/main/java/com/ejt/vaadin/loginform/shared/LoginFormContainerConnector.java:25-26 | A new connector has no resolved fields and an empty trace. |
| ContainerConnector.LoginFormContainerConnector.ValuesChanged | src/main/java/com/ejt/vaadin/loginform/shared/LoginFormContainerConnector.java:106-113 | The trace grows by ValueChangeEffects of the current fields. |
| ContainerConnector.LoginFormContainerConnector.OnKeyDown | src/main/java/com/ejt/vaadin/loginform/shared/LoginFormContainerConnector.java:65-73 | Enter appends EnterEffects, with no autocomplete guard. Any other key does nothing. |
| ContainerConnector.LoginFormContainerConnector.ConfigureTextField | src/main/java/com/ejt/vaadin/loginform/shared/LoginFormContainerConnector.java:61-84 | A null connector yields null and touches nothing. Otherwise one key handler is attached and the attributes become ContainerConfiguredAttributes. |
| ContainerConnector.LoginFormContainerConnector.AddSubmitButtonClickHandler | src/main/java/com/ejt/vaadin/loginform/shared/LoginFormContainerConnector.java:86-104 | A null button gets nothing. A ButtonConnector gets one click handler and one focus handler. Any other connector fails the cast with ClassCastException and gets nothing. |
| ContainerConnector.LoginFormContainerConnector.OnButtonClick | src/main/java/com/ejt/vaadin/loginform/shared/LoginFormContainerConnector.java:89-95 | A click submits the form without flushing. |
| ContainerConnector.LoginFormContainerConnector.OnButtonFocus | src/main/java/com/ejt/vaadin/loginform/shared/LoginFormContainerConnector.java:97-102 | Focusing the button flushes the fields. |
| ContainerConnector.LoginFormContainerConnector.OnStateChanged | src/main/java/com/ejt/vaadin/loginform/shared/LoginFormContainerConnector.java:51-59 | The fields become the state's connectors, tagged "username" and then "password". Each field gets one key handler, or two if one connector is used for both. It fails exactly when the button cast fails. Otherwise a non-null button gets one click and one focus handler; after a failure it gets neither. |
| ServerForm.TrimContextPath | src/main/java/com/ejt/vaadin/loginform/LoginForm.java:62-66 | A context path ending in "/" loses exactly its last character. Any other path is unchanged. |
| ServerForm.TrimRemovesOneSlash | src/main/java/com/ejt/vaadin/loginform/LoginForm.java:63-65 | For every s, trimming s + "//" gives s + "/", and trimming again gives s. Only one trailing slash goes per trim, so trimming is not idempotent. |
| ServerForm.HandleRequest | src/main/java/com/ejt/vaadin/loginform/LoginForm.java:75-88 | The request is handled iff the path info equals /loginForm. It then writes text/html; charset=utf-8, cache time -1 and the body \<html\>Success\</html\>. Otherwise it declines and writes nothing. |
| ServerForm.FormPostHandledOnlyAtRoot | src/main/java/com/ejt/vaadin/loginform/LoginForm.java:78 | Suppose the hidden form's post to /loginForm arrives split into context path, servlet path and path info. Then the handler takes it iff the context path and the servlet path are both empty. |
| ServerForm.Component.Focus | src/main/java/com/ejt/vaadin/loginform/LoginForm.java:142 | focus() marks the component as asking for the focus. |
| ServerForm.Component.Click | src/main/java/com/ejt/vaadin/loginform/LoginForm.java:161-166 | A click on the default login button calls its form's login() once. The form's slots, initialized flag, context path, shortcuts, RPC flag and registered handler are unchanged. |
| ServerForm.Session.AddRequestHandler | src/main/java/com/ejt/vaadin/loginform/LoginForm.java:75 | The handler is added without deduplication: the list grows by one, holds the handler and keeps every old handler; as a multiset it is the old list plus exactly this handler. Its position is not stated. |
| ServerForm.LoginForm.constructor | src/main/java/com/ejt/vaadin/loginform/LoginForm.java:56-98 | Each slot holds a distinct fresh component made by its create hook while initialized was false. initialized is true afterwards. The context path is trimmed. The Enter shortcut and the RPC are registered. The session's handler list, as a multiset, is the old one plus exactly the fresh handler. |
| ServerForm.LoginForm.FillSlots | src/main/java/com/ejt/vaadin/loginform/LoginForm.java:57-60 | Run while initialized is false, the three create hooks fill the slots with fresh default components. |
| ServerForm.LoginForm.Register | src/main/java/com/ejt/vaadin/loginform/LoginForm.java:62-95 | The context path is trimmed and one Enter shortcut is added. The session's handler list, as a multiset, is the old one plus exactly one fresh handler. The RPC is registered. |
| ServerForm.LoginForm.CheckInitialized | src/main/java/com/ejt/vaadin/loginform/LoginForm.java:170-174 | Fails with IllegalStateException and the "Already initialized" message iff the form is initialized. |
| ServerForm.LoginForm.CreateUserNameField | src/main/java/com/ejt/vaadin/loginform/LoginForm.java:139-144 | Fails iff initialized. Otherwise returns a fresh "User name" text field that asks for the focus. |
| ServerForm.LoginForm.CreatePasswordField | src/main/java/com/ejt/vaadin/loginform/LoginForm.java:150-153 | Fails iff initialized. Otherwise returns a fresh "Password" password field. |
| ServerForm.LoginForm.CreateLoginButton | src/main/java/com/ejt/vaadin/loginform/LoginForm.java:159-168 | Fails iff initialized. Otherwise returns a fresh "Login" button whose click listener is this form. |
| ServerForm.LoginForm.Login | src/main/java/com/ejt/vaadin/loginform/LoginForm.java:100 | A call of the abstract login() hook is recorded once, and nothing else changes. |
| ServerForm.LoginForm.HandleShortcutAction | src/main/java/com/ejt/vaadin/loginform/LoginForm.java:68-73 | The Enter shortcut calls login() once, and nothing else changes. |
| ServerForm.LoginForm.SubmitCompletedRpc | src/main/java/com/ejt/vaadin/loginform/LoginForm.java:90-95 | The submitCompleted RPC calls the submitCompleted() hook and changes nothing else. |
| ServerForm.LoginForm.GetUserNameField | src/main/java/com/ejt/vaadin/loginform/LoginForm.java:115-117 | Returns the user-name slot. |
| ServerForm.LoginForm.GetPasswordField | src/main/java/com/ejt/vaadin/loginform/LoginForm.java:123-125 | Returns the password slot. |
| ServerForm.LoginForm.GetLoginButton | src/main/java/com/ejt/vaadin/loginform/LoginForm.java:131-133 | Returns the login-button slot. |
| ServerForm.ConstructedForm | src/main/java/com/ejt/vaadin/loginform/LoginForm.java:135-174 | After construction each of the three create hooks returns the IllegalStateException "Already initialized". The getter returns the stored login button, whose listener is the form. A click on it leaves exactly one login() call recorded. |
| ServerForm.TwoFormsOneSession | src/main/java/com/ejt/vaadin/loginform/LoginForm.java:75 | Two forms in one session add two distinct handlers, both in the session's list, which grows by two. |

## Other revisions in the repository

The repository's files belong to more than one revision of the component. The model follows
`LoginForm.java` and the two connectors.

- `LoginMode.java:21-37` refers to `LoginForm#setLoginMode` and `LoginForm#login(String, String)`.
  Neither exists in `LoginForm.java`, whose only login hook is the no-argument `login()`.
- `TestUi.java:17` and `TestUi.java:46` call `clear()`, `TestUi.java:27` calls `addLoginListener`,
  and `DefaultVerticalLoginForm.java:29` overrides `createContent`. None of these exists in
  `LoginForm.java`.
- `LoginForm.java:66` writes `state.contextPath`, but `LoginFormState.java` has no such field. The
  model keeps the context path as a field of the form.
- `LoginFormConnector.java:118` sends the `submitted` RPC, but the RPC object registered at
  `LoginForm.java:90-95` implements only `submitCompleted`.
- `LoginForm.java:75` adds a new request handler each time a form is constructed, without looking
  for one already in the session. `TwoFormsOneSession` shows two forms adding two distinct
  handlers.

## Left out

- GWT and Vaadin machinery is not modelled: state synchronisation, the RPC proxy and registration,
  `setWidget` and the widget hierarchy, and the browser round trip of `FormPanel.submit()`. Each of
  these is at most an effect in a trace or a flag.
- The response writing (`PrintWriter`, `setCacheTime`) is I/O. `HandleRequest` gives only the
  decision and what would be written.
- Subclass overrides of the `create*` hooks and of `login()` are dynamic dispatch and are not
  modelled. The model has the default hooks, and `login()` / `submitCompleted()` are recorded,
  not run.
- Calling the current request's `getContextPath()` (LoginForm.java:62) is replaced by a constructor
  parameter, and the session is one too, standing for `VaadinSession.getCurrent()` (LoginForm.java:75).
  The NullPointerException the source throws when there is no current request or no current session
  is not modelled: both are always given.
- The native `log` debugging method is not modelled.
- LoginMode dispatch, `clear()`, login listeners and `DefaultVerticalLoginForm.createContent`
  belong to another revision of the API and have no code in `LoginForm.java`.
- FormConnector.LoginFormConnector.OnStateChanged: the key handler objects it attaches are counted
  on the fields but not returned, so a caller cannot reach the handler objects. Which handler
  objects accumulate over repeated state changes is a framework-lifecycle detail.
- Servlet dispatch is not modelled. The split of a request path into context path, servlet path and
  path info is taken as the Java Servlet specification defines it. `FormPostHandledOnlyAtRoot`
  states that the shown client's post to the absolute path `/loginForm` is handled only in a
  root-context deployment with a root servlet mapping. The client in this revision never reads
  `state.contextPath`.
- `onConnectorHierarchyChange` and `getState` only forward to the framework, and `updateCaption`
  has an empty body (LoginFormConnector.java:50-52, LoginFormContainerConnector.java:29-31).
