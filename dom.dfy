/**
 * Client-side values shared by both connector variants: the GWT key codes the
 * key handlers compare against, the text-field and button connectors (each
 * standing for the connector, its widget and the widget's DOM element), and
 * the effects the connectors perform on the hidden form and the RPC channel,
 * recorded as a trace.
 */
module Dom {

  // com.google.gwt.event.dom.client.KeyCodes
  const KEY_ENTER: int := 13
  const KEY_PAGEUP: int := 33
  const KEY_PAGEDOWN: int := 34
  const KEY_UP: int := 38
  const KEY_DOWN: int := 40

  /** The path the hidden form posts to. */
  const LOGIN_URL: string := "/loginForm"

  // What the constructors of both client widgets (LoginFormGWT and
  // LoginFormContainerGWT) set on their FormPanel.
  const FORM_ELEMENT_ID: string := "loginForm"
  const FORM_METHOD: string := "post"
  const FORM_ACTION: string := LOGIN_URL

  /**
   * A text-field connector with its widget. `attributes` are the attributes of
   * the widget's DOM element; an element whose id is null has no "id" key.
   * `keyDownHandlers` counts the key-down handlers attached to the widget.
   */
  class TextField {
    var attributes: map<string, string>
    var keyDownHandlers: nat

    constructor (attributes: map<string, string>)
      ensures this.attributes == attributes && keyDownHandlers == 0
    {
      this.attributes := attributes;
      keyDownHandlers := 0;
    }
  }

  /** The connector class behind a login-button connector reference. */
  datatype ButtonKind =
    | ButtonConnector        // com.vaadin.client.ui.button.ButtonConnector
    | NativeButtonConnector  // com.vaadin.client.ui.nativebutton.NativeButtonConnector
    | OtherConnector         // any other connector class

  /** A connector referenced as the login button, with the handlers attached to its widget. */
  class Button {
    const kind: ButtonKind
    var clickHandlers: nat
    var focusHandlers: nat

    constructor (kind: ButtonKind)
      ensures this.kind == kind && clickHandlers == 0 && focusHandlers == 0
    {
      this.kind := kind;
      clickHandlers, focusHandlers := 0, 0;
    }
  }

  /** The shared state as the client sees it: three connector references, each possibly null. */
  datatype ClientState = ClientState(userNameField: TextField?, passwordField: TextField?, loginButton: Button?)

  /** The side effects of the connectors, in the order they happen. */
  datatype Effect =
    | FormSubmit                     // FormPanel.submit() on the hidden form
    | ValueChange(field: TextField)  // VTextField.valueChange(true): flush the field's value to the server state
    | SubmittedRpc                   // LoginFormRpc.submitted()
    | SubmitCompletedRpc             // LoginFormRpc.submitCompleted()

  predicate StartsWith(s: string, prefix: string) {
    |prefix| <= |s| && s[..|prefix|] == prefix
  }

  /**
   * The effects of `valuesChanged()`, which has the same body in both
   * connectors: the password field is flushed before the user field, and a
   * null field is skipped.
   */
  function ValueChangeEffects(passwordField: TextField?, userField: TextField?): (e: seq<Effect>)
    ensures |e| == (if passwordField != null then 1 else 0) + (if userField != null then 1 else 0)
    ensures forall k :: 0 <= k < |e| ==> e[k].ValueChange?
    ensures passwordField != null ==> e[0] == ValueChange(passwordField)
    ensures userField != null ==> e[|e| - 1] == ValueChange(userField)
  {
    (if passwordField != null then [ValueChange(passwordField)] else [])
    + (if userField != null then [ValueChange(userField)] else [])
  }
}
