/**
 * The older client connector (LoginFormContainerConnector). It has the shape
 * of LoginFormConnector with other rules: the element id is always replaced,
 * Enter flushes the fields and then submits with no autocomplete guard, a
 * button click only submits, focusing the button flushes, and no RPC is sent.
 */
module ContainerConnector {
  import opened Wrappers
  import opened Dom
  import FormConnector

  /**
   * The element attributes after this variant's `configureTextField`: `id`
   * and `name` are the given id and `autocomplete` is "on", whatever id was
   * there before; nothing else changes.
   */
  function ContainerConfiguredAttributes(attributes: map<string, string>, id: string): (r: map<string, string>)
    ensures r.Keys == attributes.Keys + {"id", "name", "autocomplete"}
    ensures r["id"] == id && r["name"] == id && r["autocomplete"] == "on"
    ensures forall k :: k in attributes && k != "id" && k != "name" && k != "autocomplete" ==> r[k] == attributes[k]
  {
    attributes["id" := id]["name" := id]["autocomplete" := "on"]
  }

  /**
   * The two variants tag a field identically exactly when the element has no
   * external id or its external id already is the given one.
   */
  lemma VariantsAgreeUnlessExternalId(attributes: map<string, string>, id: string)
    ensures FormConnector.ConfiguredAttributes(attributes, id) == ContainerConfiguredAttributes(attributes, id)
        <==> !FormConnector.HasExternalId(attributes) || attributes["id"] == id
  {
  }


  /** Repeating this variant's configuration changes nothing. */
  lemma ContainerConfigureIdempotent(attributes: map<string, string>, id: string)
    ensures ContainerConfiguredAttributes(ContainerConfiguredAttributes(attributes, id), id)
         == ContainerConfiguredAttributes(attributes, id)
  {
  }

  /**
   * The trace of an Enter in either text field: the fields are flushed
   * (password, then user, nulls skipped) and only then is the form
   * submitted, once.
   */
  function EnterEffects(passwordField: TextField?, userField: TextField?): (e: seq<Effect>)
    ensures |e| == 1 + (if passwordField != null then 1 else 0) + (if userField != null then 1 else 0)
    ensures e[|e| - 1] == FormSubmit
    ensures forall k :: 0 <= k < |e| - 1 ==> e[k].ValueChange?
    ensures passwordField != null ==> e[0] == ValueChange(passwordField)
    ensures userField != null ==> e[|e| - 2] == ValueChange(userField)
  {
    ValueChangeEffects(passwordField, userField) + [FormSubmit]
  }

  /** This variant submits after flushing, where LoginFormConnector submits before it. */
  lemma SubmitOrderDiffers(passwordField: TextField?, userField: TextField?)
    requires passwordField != null || userField != null
    ensures EnterEffects(passwordField, userField)[0] != FormConnector.LoginEffects(passwordField, userField)[0]
  {
  }

  /** The container connector; `trace` records its effects on the hidden form. */
  class LoginFormContainerConnector {
    var userField: TextField?
    var passwordField: TextField?
    var trace: seq<Effect>

    constructor ()
      ensures userField == null && passwordField == null && trace == []
    {
      userField, passwordField, trace := null, null, [];
    }

    method ValuesChanged()
      modifies this
      ensures trace == old(trace) + ValueChangeEffects(passwordField, userField)
      ensures userField == old(userField) && passwordField == old(passwordField)
    {
      if passwordField != null {
        trace := trace + [ValueChange(passwordField)];
      }
      if userField != null {
        trace := trace + [ValueChange(userField)];
      }
    }

    /** The key-down handler attached to each text field: only Enter does anything. */
    method OnKeyDown(keyCode: int)
      modifies this
      ensures trace == old(trace) + (if keyCode == KEY_ENTER then EnterEffects(passwordField, userField) else [])
      ensures userField == old(userField) && passwordField == old(passwordField)
    {
      if keyCode == KEY_ENTER {
        ValuesChanged();
        trace := trace + [FormSubmit];
      }
    }

    /**
     * `configureTextField`: a null connector yields null and touches nothing;
     * otherwise a key-down handler is attached and the element is tagged.
     */
    method ConfigureTextField(connector: TextField?, id: string) returns (textField: TextField?)
      modifies connector
      ensures textField == connector
      ensures connector != null ==>
        && connector.keyDownHandlers == old(connector.keyDownHandlers) + 1
        && connector.attributes == ContainerConfiguredAttributes(old(connector.attributes), id)
    {
      if connector != null {
        connector.keyDownHandlers := connector.keyDownHandlers + 1;
        connector.attributes := connector.attributes["id" := id];
        connector.attributes := connector.attributes["name" := id];
        connector.attributes := connector.attributes["autocomplete" := "on"];
        textField := connector;
      } else {
        textField := null;
      }
    }

    /**
     * A non-null button gets a click handler and a focus handler. The button
     * is cast to ButtonConnector, so a connector of another class throws and
     * gets neither; a null button gets nothing.
     */
    method AddSubmitButtonClickHandler(buttonConnector: Button?) returns (o: Outcome<Exception>)
      modifies buttonConnector
      ensures o.Fail? <==> buttonConnector != null && buttonConnector.kind != ButtonConnector
      ensures o.Fail? ==> o.error == ClassCastException
      ensures buttonConnector != null ==>
        var added := if o.Pass? then 1 else 0;
        && buttonConnector.clickHandlers == old(buttonConnector.clickHandlers) + added
        && buttonConnector.focusHandlers == old(buttonConnector.focusHandlers) + added
    {
      if buttonConnector != null {
        if buttonConnector.kind != ButtonConnector {
          return Fail(ClassCastException);
        }
        buttonConnector.clickHandlers := buttonConnector.clickHandlers + 1;
        buttonConnector.focusHandlers := buttonConnector.focusHandlers + 1;
      }
      o := Pass;
    }

    /** The button's click handler: it submits without flushing. */
    method OnButtonClick()
      modifies this
      ensures trace == old(trace) + [FormSubmit]
      ensures userField == old(userField) && passwordField == old(passwordField)
    {
      trace := trace + [FormSubmit];
    }

    /** The button's focus handler: it flushes the fields. */
    method OnButtonFocus()
      modifies this
      ensures trace == old(trace) + ValueChangeEffects(passwordField, userField)
      ensures userField == old(userField) && passwordField == old(passwordField)
    {
      ValuesChanged();
    }

    /**
     * `onStateChanged`: both fields are re-resolved and tagged ("username"
     * first, then "password"), and the button gets its handlers; the cast
     * of the button may throw after the fields are done.
     */
    method OnStateChanged(state: ClientState) returns (o: Outcome<Exception>)
      modifies this, state.userNameField, state.passwordField, state.loginButton
      ensures userField == state.userNameField && passwordField == state.passwordField
      ensures trace == old(trace)
      ensures o.Fail? <==> state.loginButton != null && state.loginButton.kind != ButtonConnector
      ensures state.userNameField != null && state.userNameField != state.passwordField ==>
        state.userNameField.attributes == ContainerConfiguredAttributes(old(state.userNameField.attributes), "username")
      ensures state.passwordField != null ==>
        state.passwordField.attributes == ContainerConfiguredAttributes(
          if state.userNameField == state.passwordField
          then ContainerConfiguredAttributes(old(state.passwordField.attributes), "username")
          else old(state.passwordField.attributes),
          "password")
      ensures state.userNameField != null ==>
        state.userNameField.keyDownHandlers == old(state.userNameField.keyDownHandlers)
          + (if state.userNameField == state.passwordField then 2 else 1)
      ensures state.passwordField != null ==>
        state.passwordField.keyDownHandlers == old(state.passwordField.keyDownHandlers)
          + (if state.userNameField == state.passwordField then 2 else 1)
      ensures state.loginButton != null ==>
        var added := if o.Pass? then 1 else 0;
        && state.loginButton.clickHandlers == old(state.loginButton.clickHandlers) + added
        && state.loginButton.focusHandlers == old(state.loginButton.focusHandlers) + added
    {
      userField := ConfigureTextField(state.userNameField, "username");
      passwordField := ConfigureTextField(state.passwordField, "password");
      o := AddSubmitButtonClickHandler(state.loginButton);
    }
  }
}
