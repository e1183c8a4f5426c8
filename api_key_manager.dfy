/**
 * The key settings panel of `src/components/Settings/ApiKeyManager.tsx`: the masked form
 * a key is shown in, and the save action with its `sk-` prefix guard. The panel's state
 * is a class; the key store it writes to is a field.
 */
module ApiKeyManagement {
  import opened Text
  import opened Wrappers
  import KeyValidation

  /** `maskApiKey`: keeps the first and last four characters of a key longer than 8. */
  function MaskApiKey(key: string): (r: string)
    ensures |r| == |key|
    ensures |key| <= 8 ==> forall i | 0 <= i < |r| :: r[i] == '*'
    ensures |key| > 8 ==>
      && r[..4] == key[..4] && r[|r| - 4..] == key[|key| - 4..]
      && forall i | 4 <= i < |r| - 4 :: r[i] == '*'
  {
    if key == [] then []
    else if |key| <= 8 then Repeat('*', |key|)
    else key[..4] + Repeat('*', |key| - 8) + key[|key| - 4..]
  }

  /** Every shown character is the key's own or a `*`, and at most eight are the key's. */
  lemma MaskHidesMiddle(key: string)
    ensures var r := MaskApiKey(key);
      && (forall i | 0 <= i < |r| :: r[i] == key[i] || r[i] == '*')
      && (forall i | 0 <= i < |r| && r[i] != '*' :: i < 4 || i >= |r| - 4)
  {
    var r := MaskApiKey(key);
    if |key| > 8 {
      forall i | 0 <= i < |r| ensures r[i] == key[i] || r[i] == '*' {
        if i < 4 {
          assert r[..4][i] == key[..4][i];
        } else if i >= |r| - 4 {
          assert r[|r| - 4..][i - (|r| - 4)] == key[|key| - 4..][i - (|key| - 4)];
        }
      }
    }
  }

  /** The guard of `handleSave`: an OpenAI key, when given, starts with `sk-`. */
  predicate Saveable(keys: KeyValidation.ApiKeys)
  {
    keys.openAiApiKey == [] || StartsWith(keys.openAiApiKey, "sk-")
  }

  /** A key that passes the OpenAI format checks also passes the save guard. */
  lemma PrecheckedKeySaveable(keys: KeyValidation.ApiKeys)
    requires KeyValidation.OpenAiPrecheck(keys.openAiApiKey).Probe?
    ensures Saveable(keys)
  {
  }

  const PrefixStatus := "OpenAI API key should start with \"sk-\""
  const SavedStatus := "API keys saved successfully!"
  const ErrorStatus := "Error saving API keys."

  class ApiKeyManager {
    /** The keys being edited. */
    var keys: KeyValidation.ApiKeys
    /** What the key store holds. */
    var stored: KeyValidation.ApiKeys
    var status: string
    var isSuccess: bool
    var showStatus: bool

    /** The panel opens with the stored keys. */
    constructor(stored: KeyValidation.ApiKeys)
      ensures this.stored == stored && keys == stored
      ensures status == [] && !isSuccess && !showStatus
    {
      this.stored := stored;
      keys := stored;
      status := [];
      isSuccess := false;
      showStatus := false;
    }

    /** `handleChange` for the OpenAI key field. */
    method ChangeOpenAiKey(value: string)
      modifies this`keys
      ensures keys == old(keys).(openAiApiKey := value)
    {
      keys := keys.(openAiApiKey := value);
    }

    /** `handleChange` for the ElevenLabs key field. */
    method ChangeElevenLabsKey(value: string)
      modifies this`keys
      ensures keys == old(keys).(elevenLabsApiKey := value)
    {
      keys := keys.(elevenLabsApiKey := value);
    }

    /**
     * `handleSave`: a non-empty OpenAI key without the `sk-` prefix is refused and nothing
     * is written; otherwise the keys are written, unless the store fails (`writeFails`).
     */
    method HandleSave(writeFails: bool)
      modifies this`stored, this`status, this`isSuccess, this`showStatus
      ensures showStatus
      ensures !Saveable(keys) ==> stored == old(stored) && status == PrefixStatus && !isSuccess
      ensures Saveable(keys) && writeFails ==> stored == old(stored) && status == ErrorStatus && !isSuccess
      ensures Saveable(keys) && !writeFails ==> stored == keys && status == SavedStatus && isSuccess
      ensures isSuccess ==> stored == keys && Saveable(stored)
    {
      if keys.openAiApiKey != [] && !StartsWith(keys.openAiApiKey, "sk-") {
        status := PrefixStatus;
        isSuccess := false;
        showStatus := true;
        return;
      }
      if writeFails {
        status := ErrorStatus;
        isSuccess := false;
        showStatus := true;
        return;
      }
      stored := keys;
      status := SavedStatus;
      isSuccess := true;
      showStatus := true;
    }
  }
}
