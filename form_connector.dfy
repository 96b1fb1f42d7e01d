/**
 * The client connector of the login form (LoginFormConnector): it tags the two
 * text fields so that password managers recognise them, submits the hidden
 * form and notifies the server on Enter or on a login-button click, and keeps
 * an Enter that merely picks an entry from the browser's autocomplete dropdown
 * from submitting.
 */
module FormConnector {
  import opened Wrappers
  import opened Dom

  // ---------------------------------------------------------------------------
  // The Enter-key filter of SubmitKeyHandler, as a function of the key codes
  // ---------------------------------------------------------------------------

  /**
   * The previous key moves through an autocomplete dropdown. Neither Enter
   * nor the initial key code 0 does, so a first Enter and an Enter after an
   * Enter are never taken for dropdown navigation.
   */
  predicate IsInAutoComplete(previousKeyCode: int)
    ensures IsInAutoComplete(previousKeyCode) <==> previousKeyCode in {KEY_PAGEUP, KEY_PAGEDOWN, KEY_UP, KEY_DOWN}
    ensures IsInAutoComplete(previousKeyCode) ==> previousKeyCode != KEY_ENTER && previousKeyCode != 0
  {
    previousKeyCode == KEY_PAGEUP || previousKeyCode == KEY_PAGEDOWN
    || previousKeyCode == KEY_UP || previousKeyCode == KEY_DOWN
  }

  /** The handler's new `previousKeyCode`, and whether `login()` fired. */
  datatype KeyOutcome = KeyOutcome(previousKeyCode: int, login: bool)

  /**
   * One key-down event: an Enter after a navigation key is swallowed and
   * remembered, any other Enter logs in without touching the remembered key,
   * and every other key is remembered.
   */
  function KeyDown(previousKeyCode: int, keyCode: int): (o: KeyOutcome)
    ensures o.login <==> keyCode == KEY_ENTER && !IsInAutoComplete(previousKeyCode)
    ensures !o.login ==> o.previousKeyCode == keyCode
    ensures o.login ==> o.previousKeyCode == previousKeyCode
    // whatever happened, the dropdown state now follows the key just pressed
    ensures IsInAutoComplete(o.previousKeyCode) <==> IsInAutoComplete(keyCode)
  {
    if keyCode == KEY_ENTER then
      if IsInAutoComplete(previousKeyCode) then KeyOutcome(keyCode, false)
      else KeyOutcome(previousKeyCode, true)
    else
      KeyOutcome(keyCode, false)
  }

  /** For each key of a sequence of key-down events, whether it fired `login()`. */
  function Logins(previousKeyCode: int, keys: seq<int>): (fired: seq<bool>)
    ensures |fired| == |keys|
    decreases |keys|
  {
    if keys == [] then []
    else
      var o := KeyDown(previousKeyCode, keys[0]);
      [o.login] + Logins(o.previousKeyCode, keys[1..])
  }

  /**
   * The whole filter in one statement: a key logs in exactly when it is Enter
   * and the key right before it (for the first key, the remembered one) is
   * not PageUp, PageDown, Up or Down.
   */
  lemma {:induction false} LoginsCharacterised(previousKeyCode: int, keys: seq<int>, i: nat)
    requires i < |keys|
    ensures Logins(previousKeyCode, keys)[i]
        <==> keys[i] == KEY_ENTER && !IsInAutoComplete(if i == 0 then previousKeyCode else keys[i - 1])
    decreases i
  {
    if i > 0 {
      var o := KeyDown(previousKeyCode, keys[0]);
      LoginsCharacterised(o.previousKeyCode, keys[1..], i - 1);
      assert Logins(previousKeyCode, keys)[i] == Logins(o.previousKeyCode, keys[1..])[i - 1];
      if i > 1 {
        assert keys[1..][i - 2] == keys[i - 1];
      }
    }
  }

  /** A key other than Enter never logs in. */
  lemma NonEnterNeverLogsIn(previousKeyCode: int, keys: seq<int>, i: nat)
    requires i < |keys| && keys[i] != KEY_ENTER
    ensures !Logins(previousKeyCode, keys)[i]
  {
    LoginsCharacterised(previousKeyCode, keys, i);
  }

  /** An Enter right after PageUp, PageDown, Up or Down is swallowed. */
  lemma EnterAfterNavigationSwallowed(previousKeyCode: int, keys: seq<int>, i: nat)
    requires 0 < i < |keys| && IsInAutoComplete(keys[i - 1]) && keys[i] == KEY_ENTER
    ensures !Logins(previousKeyCode, keys)[i]
  {
    LoginsCharacterised(previousKeyCode, keys, i);
  }

  /** An Enter right after another Enter always logs in, so a second Enter is never lost. */
  lemma SecondEnterLogsIn(previousKeyCode: int, keys: seq<int>, i: nat)
    requires 0 < i < |keys| && keys[i - 1] == KEY_ENTER && keys[i] == KEY_ENTER
    ensures Logins(previousKeyCode, keys)[i]
  {
    LoginsCharacterised(previousKeyCode, keys, i);
  }

  /**
   * After a navigation key, the sequence Enter, Enter logs in exactly once,
   * on the second Enter.
   */
  lemma NavigationThenEnterEnter(previousKeyCode: int, keys: seq<int>, i: nat)
    requires i + 2 < |keys| && IsInAutoComplete(keys[i])
    requires keys[i + 1] == KEY_ENTER && keys[i + 2] == KEY_ENTER
    ensures Logins(previousKeyCode, keys)[i..i + 3] == [false, false, true]
  {
    LoginsCharacterised(previousKeyCode, keys, i);
    LoginsCharacterised(previousKeyCode, keys, i + 1);
    LoginsCharacterised(previousKeyCode, keys, i + 2);
  }

  // ---------------------------------------------------------------------------
  // DOM attributes of a configured text field
  // ---------------------------------------------------------------------------

  /** An id someone other than GWT chose: not null, not empty, not "gwt-" generated. */
  predicate HasExternalId(attributes: map<string, string>)
    ensures HasExternalId(attributes) ==> "id" in attributes && |attributes["id"]| > 0
    ensures "id" in attributes && |attributes["id"]| >= 4 && attributes["id"][..4] == "gwt-" ==> !HasExternalId(attributes)
    ensures "id" in attributes && |attributes["id"]| > 0 && attributes["id"][0] != 'g' ==> HasExternalId(attributes)
  {
    "id" in attributes && attributes["id"] != "" && !StartsWith(attributes["id"], "gwt-")
  }

  /**
   * The element attributes after `configureTextField(connector, id)`: an
   * external id is kept, any other id is replaced by `id`; `name` is `id` and
   * `autocomplete` is "on"; nothing else changes.
   */
  function ConfiguredAttributes(attributes: map<string, string>, id: string): (r: map<string, string>)
    ensures r.Keys == attributes.Keys + {"id", "name", "autocomplete"}
    ensures r["id"] == (if HasExternalId(attributes) then attributes["id"] else id)
    ensures r["name"] == id && r["autocomplete"] == "on"
    ensures forall k :: k in attributes && k != "id" && k != "name" && k != "autocomplete" ==> r[k] == attributes[k]
  {
    var withId := if HasExternalId(attributes) then attributes else attributes["id" := id];
    withId["name" := id]["autocomplete" := "on"]
  }

  /** Configuring a text field a second time with the same id changes nothing. */
  lemma ConfigureIdempotent(attributes: map<string, string>, id: string)
    ensures ConfiguredAttributes(ConfiguredAttributes(attributes, id), id) == ConfiguredAttributes(attributes, id)
  {
  }


  // ---------------------------------------------------------------------------
  // The effects of login()
  // ---------------------------------------------------------------------------

  /**
   * The trace of `login()`: the hidden form is submitted first, the fields
   * are flushed (password, then user, nulls skipped) and the `submitted` RPC
   * comes last; the submit and the RPC each happen exactly once.
   */
  function LoginEffects(passwordField: TextField?, userField: TextField?): (e: seq<Effect>)
    ensures |e| == 2 + (if passwordField != null then 1 else 0) + (if userField != null then 1 else 0)
    ensures e[0] == FormSubmit && e[|e| - 1] == SubmittedRpc
    ensures forall k :: 0 < k < |e| - 1 ==> e[k].ValueChange?
    ensures passwordField != null ==> e[1] == ValueChange(passwordField)
    ensures userField != null ==> e[|e| - 2] == ValueChange(userField)
  {
    [FormSubmit] + ValueChangeEffects(passwordField, userField) + [SubmittedRpc]
  }

  // ---------------------------------------------------------------------------
  // The connector and its key handler
  // ---------------------------------------------------------------------------

  /** The client connector; `trace` records its effects on the hidden form and the RPC channel. */
  class LoginFormConnector {
    var userField: TextField?
    var passwordField: TextField?
    var trace: seq<Effect>

    /** The connector after `init()`: no fields resolved yet and nothing done. */
    constructor ()
      ensures userField == null && passwordField == null && trace == []
    {
      userField, passwordField, trace := null, null, [];
    }

    /** The submit-complete handler registered in `init()`. */
    method OnSubmitComplete()
      modifies this
      ensures trace == old(trace) + [SubmitCompletedRpc]
      ensures userField == old(userField) && passwordField == old(passwordField)
    {
      trace := trace + [SubmitCompletedRpc];
    }

    method ValuesChanged()
      modifies this
      ensures trace == old(trace) + ValueChangeEffects(passwordField, userField)
      ensures userField == old(userField) && passwordField == old(passwordField)
    {
      if passwordField != null {
        trace := trace + [ValueChange(passwordField)];
      }
      if userField != null {
        trace := trace + [ValueChange(userField)];
      }
    }

    method Login()
      modifies this
      ensures trace == old(trace) + LoginEffects(passwordField, userField)
      ensures userField == old(userField) && passwordField == old(passwordField)
    {
      trace := trace + [FormSubmit];
      ValuesChanged();
      trace := trace + [SubmittedRpc];
    }

    /**
     * `configureTextField`: a null connector yields null and touches nothing;
     * otherwise a fresh SubmitKeyHandler is attached and the element's
     * attributes are configured.
     */
    method ConfigureTextField(connector: TextField?, id: string) returns (textField: TextField?, handler: SubmitKeyHandler?)
      modifies connector
      ensures textField == connector
      ensures connector == null ==> handler == null
      ensures connector != null ==>
        && handler != null && fresh(handler) && handler.owner == this && handler.previousKeyCode == 0
        && connector.keyDownHandlers == old(connector.keyDownHandlers) + 1
        && connector.attributes == ConfiguredAttributes(old(connector.attributes), id)
    {
      if connector != null {
        handler := new SubmitKeyHandler(this);
        connector.keyDownHandlers := connector.keyDownHandlers + 1;
        var externalId := if "id" in connector.attributes then Some(connector.attributes["id"]) else None;
        if externalId.None? || externalId.value == "" || StartsWith(externalId.value, "gwt-") {
          connector.attributes := connector.attributes["id" := id];
        }
        connector.attributes := connector.attributes["name" := id];
        connector.attributes := connector.attributes["autocomplete" := "on"];
        textField := connector;
      } else {
        textField, handler := null, null;
      }
    }

    /** A click handler is attached to a Button or NativeButton connector and to nothing else. */
    method AddSubmitButtonClickHandler(buttonConnector: Button?)
      modifies buttonConnector
      ensures buttonConnector != null ==>
        buttonConnector.clickHandlers == old(buttonConnector.clickHandlers)
          + (if buttonConnector.kind != OtherConnector then 1 else 0)
      ensures buttonConnector != null ==> buttonConnector.focusHandlers == old(buttonConnector.focusHandlers)
    {
      if buttonConnector != null && buttonConnector.kind != OtherConnector {
        buttonConnector.clickHandlers := buttonConnector.clickHandlers + 1;
      }
    }

    /** The click handler attached to the login button. */
    method OnLoginButtonClick()
      modifies this
      ensures trace == old(trace) + LoginEffects(passwordField, userField)
      ensures userField == old(userField) && passwordField == old(passwordField)
    {
      Login();
    }

    /**
     * `onStateChanged`: both fields are re-resolved and configured ("username"
     * first, then "password", so a connector used for both ends up tagged as
     * the password field) and the button gets its click handler.
     */
    method OnStateChanged(state: ClientState)
      modifies this, state.userNameField, state.passwordField, state.loginButton
      ensures userField == state.userNameField && passwordField == state.passwordField
      ensures trace == old(trace)
      ensures state.userNameField != null && state.userNameField != state.passwordField ==>
        state.userNameField.attributes == ConfiguredAttributes(old(state.userNameField.attributes), "username")
      ensures state.passwordField != null ==>
        state.passwordField.attributes == ConfiguredAttributes(
          if state.userNameField == state.passwordField
          then ConfiguredAttributes(old(state.passwordField.attributes), "username")
          else old(state.passwordField.attributes),
          "password")
      ensures state.userNameField != null ==>
        state.userNameField.keyDownHandlers == old(state.userNameField.keyDownHandlers)
          + (if state.userNameField == state.passwordField then 2 else 1)
      ensures state.passwordField != null ==>
        state.passwordField.keyDownHandlers == old(state.passwordField.keyDownHandlers)
          + (if state.userNameField == state.passwordField then 2 else 1)
      ensures state.loginButton != null ==>
        state.loginButton.clickHandlers == old(state.loginButton.clickHandlers)
          + (if state.loginButton.kind != OtherConnector then 1 else 0)
      ensures state.loginButton != null ==> state.loginButton.focusHandlers == old(state.loginButton.focusHandlers)
    {
      var u, uHandler := ConfigureTextField(state.userNameField, "username");
      userField := u;
      var p, pHandler := ConfigureTextField(state.passwordField, "password");
      passwordField := p;
      AddSubmitButtonClickHandler(state.loginButton);
    }
  }

  /** The key-down handler attached to each text field; it remembers the previous key. */
  class SubmitKeyHandler {
    const owner: LoginFormConnector
    var previousKeyCode: int

    constructor (owner: LoginFormConnector)
      ensures this.owner == owner && previousKeyCode == 0
    {
      this.owner := owner;
      previousKeyCode := 0;
    }

    /** `onKeyDown`; `loginFired` says whether it called the owner's `login()`. */
    method OnKeyDown(keyCode: int) returns (loginFired: bool)
      modifies this, owner
      ensures KeyOutcome(previousKeyCode, loginFired) == KeyDown(old(previousKeyCode), keyCode)
      ensures owner.trace == old(owner.trace)
        + (if loginFired then LoginEffects(owner.passwordField, owner.userField) else [])
      ensures owner.userField == old(owner.userField) && owner.passwordField == old(owner.passwordField)
    {
      if keyCode == KEY_ENTER {
        if IsInAutoComplete(previousKeyCode) {
          previousKeyCode := keyCode;
          loginFired := false;
        } else {
          owner.Login();
          loginFired := true;
        }
      } else {
        previousKeyCode := keyCode;
        loginFired := false;
      }
    }
  }

  /**
   * A fresh handler sees Up, Enter, Enter: only the second Enter submits, and
   * the connector's trace is one run of `login()`.
   */
  method NavigateThenSubmit(c: LoginFormConnector) returns (fired: seq<bool>)
    modifies c
    ensures fired == [false, false, true]
    ensures c.trace == old(c.trace) + LoginEffects(c.passwordField, c.userField)
  {
    var h := new SubmitKeyHandler(c);
    var a := h.OnKeyDown(KEY_UP);
    var b := h.OnKeyDown(KEY_ENTER);
    var d := h.OnKeyDown(KEY_ENTER);
    fired := [a, b, d];
  }
}
