/**
 * Backend configuration (services/supabaseClient.ts): the environment-variable filter, the
 * lookup through three sources in a fixed order, and the client that is created only when
 * both the URL and the key were found.
 */
module EnvConfig {
  import opened Types

  /** A value read from an environment object: missing, a string, or anything else (a number, an object). */
  datatype EnvValue = Absent | Text(text: string) | NonString

  /** What looking the name up in one source gives: the source is not there, a value, or an exception. */
  datatype SourceRead = NoSource | Read(value: EnvValue) | Throws

  /** The strings a bundler writes when it stringifies a missing or non-string value. */
  const Placeholders: set<string> := {"undefined", "null", "[object Object]"}

  /** `isValidEnv`: a non-empty string that is not one of the placeholder strings. */
  predicate IsValidEnv(v: EnvValue)
  {
    v.Text? && |v.text| > 0 && v.text != "undefined" && v.text != "null" && v.text != "[object Object]"
  }

  /** The filter accepts exactly the non-empty strings outside the placeholders, and what it accepts is truthy. */
  lemma IsValidEnvMeaning(v: EnvValue)
    ensures IsValidEnv(v) <==> v.Text? && v.text != "" && v.text !in Placeholders
    ensures IsValidEnv(v) ==> TruthyText(Some(v.text))
    ensures !IsValidEnv(Absent) && !IsValidEnv(NonString) && !IsValidEnv(Text(""))
  {
  }

  /** A source that yields a valid value. */
  predicate Supplies(r: SourceRead)
  {
    r.Read? && IsValidEnv(r.value)
  }

  /**
   * The value the lookup returns for sources consulted in order: the first valid one, skipping
   * sources that are not there or hold no valid value; an exception ends the lookup with nothing.
   */
  function FirstValid(sources: seq<SourceRead>): (r: Option<string>)
    ensures r.Some? ==> IsValidEnv(Text(r.value))
    ensures r.Some? ==> exists i :: 0 <= i < |sources| && sources[i] == Read(Text(r.value)) &&
                                   (forall j :: 0 <= j < i ==> !Supplies(sources[j]) && !sources[j].Throws?)
    ensures r.None? ==> forall i :: 0 <= i < |sources| && Supplies(sources[i]) ==>
      exists j :: 0 <= j < i && sources[j].Throws?
  {
    if sources == [] then None
    else if sources[0].Throws? then None
    else if Supplies(sources[0]) then Some(sources[0].value.text)
    else
      assert forall i :: 1 <= i < |sources| ==> sources[i] == sources[1..][i - 1];
      FirstValid(sources[1..])
  }

  /** A source holding a valid value wins over every later source. */
  lemma {:induction false} FirstSupplierWins(sources: seq<SourceRead>, i: nat)
    requires i < |sources| && Supplies(sources[i])
    requires forall j :: 0 <= j < i ==> !Supplies(sources[j]) && !sources[j].Throws?
    ensures FirstValid(sources) == Some(sources[i].value.text)
  {
    if i > 0 {
      assert forall j :: 0 <= j < i - 1 ==> sources[1..][j] == sources[j + 1];
      FirstSupplierWins(sources[1..], i - 1);
    }
  }

  /**
   * `getEnvVar`: `import.meta.env`, then `process.env`, then `window._env_`; the first valid value
   * is returned, and an exception in any step ends the lookup with `undefined`.
   */
  method GetEnvVar(meta: SourceRead, process: SourceRead, window: SourceRead) returns (r: Option<string>)
    ensures r == FirstValid([meta, process, window])
    ensures r.Some? ==> IsValidEnv(Text(r.value))
    ensures Supplies(meta) ==> r == Some(meta.value.text)
    ensures !Supplies(meta) && !meta.Throws? && Supplies(process) ==> r == Some(process.value.text)
    ensures meta.Throws? ==> r.None?
  {
    var sources := [meta, process, window];
    var i := 0;
    while i < 3
      invariant 0 <= i <= 3
      invariant forall j :: 0 <= j < i ==> !Supplies(sources[j]) && !sources[j].Throws?
    {
      match sources[i] {
        case Throws =>
          r := None;
          NothingAfterThrow(sources, i);
          return;
        case NoSource =>
        case Read(v) =>
          if IsValidEnv(v) {
            r := Some(v.text);
            FirstSupplierWins(sources, i);
            return;
          }
      }
      i := i + 1;
    }
    r := None;
    NothingWithoutSupplier(sources);
  }

  /** An exception after sources that supply nothing leaves the lookup empty. */
  lemma {:induction false} NothingAfterThrow(sources: seq<SourceRead>, i: nat)
    requires i < |sources| && sources[i].Throws?
    requires forall j :: 0 <= j < i ==> !Supplies(sources[j]) && !sources[j].Throws?
    ensures FirstValid(sources) == None
  {
    if i > 0 {
      assert sources[1..][i - 1] == sources[i];
      NothingAfterThrow(sources[1..], i - 1);
    }
  }

  /** Sources none of which supplies a valid value leave the lookup empty. */
  lemma {:induction false} NothingWithoutSupplier(sources: seq<SourceRead>)
    requires forall j :: 0 <= j < |sources| ==> !Supplies(sources[j])
    ensures FirstValid(sources) == None
  {
    if sources != [] && !sources[0].Throws? {
      NothingWithoutSupplier(sources[1..]);
    }
  }

  /** A configured backend client. */
  datatype Client = Client(url: string, anonKey: string)

  /**
   * `if (supabaseUrl && supabaseAnonKey) try { createClient(...) } catch {}`: a client only when both
   * values are truthy and creating it does not throw.
   */
  method InitClient(url: Option<string>, anonKey: Option<string>, createThrows: bool) returns (instance: Option<Client>)
    ensures instance.Some? <==> TruthyText(url) && TruthyText(anonKey) && !createThrows
    ensures instance.Some? ==> instance.value == Client(url.value, anonKey.value)
  {
    instance := None;
    if TruthyText(url) && TruthyText(anonKey) {
      if !createThrows {
        instance := Some(Client(url.value, anonKey.value));
      }
    }
  }

  /** The module's exported state, computed once when it is loaded. */
  class SupabaseModule {
    var supabaseUrl: Option<string>
    var supabaseAnonKey: Option<string>
    var supabase: Option<Client>

    /**
     * Loading the module: both variables are looked up through the three sources, and the client
     * exists exactly when both lookups found a value and its creation did not throw.
     */
    constructor (urlSources: seq<SourceRead>, keySources: seq<SourceRead>, createThrows: bool)
      requires |urlSources| == 3 && |keySources| == 3
      ensures supabaseUrl == FirstValid(urlSources) && supabaseAnonKey == FirstValid(keySources)
      ensures supabase.Some? <==> supabaseUrl.Some? && supabaseAnonKey.Some? && !createThrows
      ensures supabase.Some? ==> supabase.value == Client(supabaseUrl.value, supabaseAnonKey.value)
    {
      var url := GetEnvVar(urlSources[0], urlSources[1], urlSources[2]);
      var key := GetEnvVar(keySources[0], keySources[1], keySources[2]);
      assert urlSources == [urlSources[0], urlSources[1], urlSources[2]];
      assert keySources == [keySources[0], keySources[1], keySources[2]];
      var instance := InitClient(url, key, createThrows);
      supabaseUrl := url;
      supabaseAnonKey := key;
      supabase := instance;
    }
  }
}
