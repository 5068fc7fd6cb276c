/**
 * The API-key store (app/src/store/api-key.ts): a key and whether it was
 * found valid, None until it has been tried.
 */
module ApiKey {
  import opened Wrappers

  datatype ApiKeyState = ApiKeyState(apiKey: Option<string>, isValid: Option<bool>)

  const Initial: ApiKeyState := ApiKeyState(None, None)

  datatype Action = SetApiKey(key: string) | SetIsValid(valid: Option<bool>) | ClearApiKey

  function Step(s: ApiKeyState, a: Action): (r: ApiKeyState)
    ensures a.SetApiKey? ==> r == ApiKeyState(Some(a.key), None)
    ensures a.SetIsValid? ==> r == s.(isValid := a.valid)
    ensures a.ClearApiKey? ==> r == Initial
  {
    match a
    case SetApiKey(key) => ApiKeyState(Some(key), None)
    case SetIsValid(valid) => s.(isValid := valid)
    case ClearApiKey => Initial
  }

  function Run(s: ApiKeyState, actions: seq<Action>): ApiKeyState
    decreases |actions|
  {
    if actions == [] then s else Step(Run(s, actions[..|actions| - 1]), actions[|actions| - 1])
  }

  /** The key stored is the one last set, as long as no clear came after it. */
  lemma {:induction false} KeyIsLastSet(actions: seq<Action>, i: nat)
    requires i < |actions| && actions[i].SetApiKey?
    requires forall j :: i < j < |actions| ==> !actions[j].SetApiKey? && !actions[j].ClearApiKey?
    ensures Run(Initial, actions).apiKey == Some(actions[i].key)
    decreases |actions|
  {
    if i < |actions| - 1 {
      var init := actions[..|actions| - 1];
      assert init[i] == actions[i];
      KeyIsLastSet(init, i);
    }
  }

  /** A clear after any sequence of actions gives the initial state. */
  lemma ClearResets(s: ApiKeyState, actions: seq<Action>)
    ensures Run(s, actions + [ClearApiKey]) == Initial
  {
    assert (actions + [ClearApiKey])[..|actions|] == actions;
  }

  class ApiKeyStore {
    var apiKey: Option<string>
    var isValid: Option<bool>

    function State(): ApiKeyState
      reads this
    {
      ApiKeyState(apiKey, isValid)
    }

    constructor ()
      ensures State() == Initial
    {
      apiKey, isValid := None, None;
    }

    /** A new key has not been tried yet. */
    method SetApiKey(key: string)
      modifies this
      ensures State() == Step(old(State()), Action.SetApiKey(key))
    {
      apiKey, isValid := Some(key), None;
    }

    method SetIsValid(valid: Option<bool>)
      modifies this
      ensures State() == Step(old(State()), Action.SetIsValid(valid))
    {
      isValid := valid;
    }

    method ClearApiKey()
      modifies this
      ensures State() == Initial
    {
      apiKey, isValid := None, None;
    }
  }
}
