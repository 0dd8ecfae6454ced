/**
 * Installing and removing the imq hook pair in the RPC framework's default
 * options object (`DEFAULT_IMQ_SERVICE_OPTIONS` on the server side,
 * `DEFAULT_IMQ_CLIENT_OPTIONS` on the client side; both plugins run the same
 * code over their own object and their own hook functions).
 */
module Hooks {
  import opened Wrappers

  /** A hook function object; what matters here is its `__datadog_patched` flag. */
  class HookFn {
    var datadogPatched: bool

    constructor (datadogPatched: bool)
      ensures this.datadogPatched == datadogPatched
    {
      this.datadogPatched := datadogPatched;
    }
  }

  /** A property of the options object: a hook function or any other setting. */
  datatype OptionValue = Hook(fn: HookFn) | Setting(value: string)

  /** The framework's mutable default options object. */
  class OptionsObject {
    var entries: map<string, OptionValue>

    constructor (entries: map<string, OptionValue>)
      ensures this.entries == entries
    {
      this.entries := entries;
    }
  }

  /** The plugin configuration dd-trace hands to `patch`; `client` is `None` when not set. */
  datatype PluginConfig = PluginConfig(client: Option<bool>)

  const BeforeCallKey := "beforeCall"
  const AfterCallKey := "afterCall"

  /** `hook && hook.__datadog_patched` for the value under `key`. */
  predicate IsPatchedHook(entries: map<string, OptionValue>, key: string)
    reads if key in entries && entries[key].Hook? then {entries[key].fn} else {}
  {
    key in entries && entries[key].Hook? && entries[key].fn.datadogPatched
  }

  /**
   * `patch`: unless `config.client === false`, flag both hook functions and
   * assign them over the two hook keys; every other option is left alone.
   */
  method Patch(options: OptionsObject, beforeCall: HookFn, afterCall: HookFn, config: PluginConfig)
    returns (installed: bool)
    modifies options, beforeCall, afterCall
    ensures installed <==> config.client != Some(false)
    ensures !installed ==>
      options.entries == old(options.entries) &&
      beforeCall.datadogPatched == old(beforeCall.datadogPatched) &&
      afterCall.datadogPatched == old(afterCall.datadogPatched)
    ensures installed ==> beforeCall.datadogPatched && afterCall.datadogPatched
    ensures installed ==>
      options.entries == old(options.entries)[BeforeCallKey := Hook(beforeCall)][AfterCallKey := Hook(afterCall)]
  {
    if config.client == Some(false) {
      return false;
    }
    beforeCall.datadogPatched := true;
    afterCall.datadogPatched := true;
    options.entries := options.entries[BeforeCallKey := Hook(beforeCall)][AfterCallKey := Hook(afterCall)];
    installed := true;
  }

  /**
   * `unpatch`: delete each of the two hook keys only when its value is a hook
   * carrying `__datadog_patched`; foreign hooks and all other options stay.
   */
  method Unpatch(options: OptionsObject)
    modifies options
    ensures options.entries ==
      old(options.entries)
        - (if old(IsPatchedHook(options.entries, BeforeCallKey)) then {BeforeCallKey} else {})
        - (if old(IsPatchedHook(options.entries, AfterCallKey)) then {AfterCallKey} else {})
  {
    var entries := options.entries;
    if IsPatchedHook(entries, BeforeCallKey) {
      options.entries := options.entries - {BeforeCallKey};
    }
    if IsPatchedHook(entries, AfterCallKey) {
      options.entries := options.entries - {AfterCallKey};
    }
  }

  /**
   * `patch` followed by `unpatch`: both hook keys are gone (whatever held them
   * before) and every other option is as it was.
   */
  method PatchThenUnpatch(options: OptionsObject, beforeCall: HookFn, afterCall: HookFn, config: PluginConfig)
    modifies options, beforeCall, afterCall
    requires config.client != Some(false)
    ensures options.entries == old(options.entries) - {BeforeCallKey, AfterCallKey}
  {
    var installed := Patch(options, beforeCall, afterCall, config);
    Unpatch(options);
  }
}
