/** Resolution of the mapping service's API key, which the app looks up in
    four places in a fixed order and without which it stops. */
module Config {
  import opened Wrappers

  /** What each source gives for the key: `None` when it does not define it. */
  datatype KeySources = KeySources(
    secretApiKey: Option<string>,    // st.secrets.get("GOOGLE_API_KEY")
    secretMapsKey: Option<string>,   // st.secrets.get("GOOGLE_MAPS_API_KEY")
    envApiKey: Option<string>,       // os.getenv("GOOGLE_API_KEY")
    envMapsKey: Option<string>)      // os.getenv("GOOGLE_MAPS_API_KEY")
  {
    /** The sources in the order the app consults them. */
    function InOrder(): seq<Option<string>> {
      [secretApiKey, secretMapsKey, envApiKey, envMapsKey]
    }
  }

  /** The app stops when no source gives a key. */
  datatype ConfigError = NoApiKey

  /** Python's `a or b`: `a` when it is truthy, otherwise `b`. */
  function Or(a: Option<string>, b: Option<string>): (r: Option<string>)
    ensures r == a || r == b
    ensures Truthy(r) <==> Truthy(a) || Truthy(b)
    ensures Truthy(a) ==> r == a
    ensures !Truthy(a) ==> r == b
  {
    if Truthy(a) then a else b
  }

  /** `a or b or c or d` over the sources, then `if not api_key: stop`. */
  function ResolveApiKey(src: KeySources): (r: Result<string, ConfigError>)
    ensures r.Failure? <==> forall i :: 0 <= i < 4 ==> !Truthy(src.InOrder()[i])
    ensures r.Success? ==> exists i :: IsFirstTruthy(src.InOrder(), i) && r.value == src.InOrder()[i].value
  {
    var key := Or(src.secretApiKey, Or(src.secretMapsKey, Or(src.envApiKey, src.envMapsKey)));
    if Truthy(key) then
      assert key == src.secretApiKey ==> IsFirstTruthy(src.InOrder(), 0);
      assert key != src.secretApiKey && key == src.secretMapsKey ==> IsFirstTruthy(src.InOrder(), 1);
      assert key != src.secretApiKey && key != src.secretMapsKey && key == src.envApiKey ==> IsFirstTruthy(src.InOrder(), 2);
      assert key != src.secretApiKey && key != src.secretMapsKey && key != src.envApiKey ==> IsFirstTruthy(src.InOrder(), 3);
      Success(key.value)
    else
      Failure(NoApiKey)
  }

  /** Entry `i` of `sources` is the first truthy one. */
  predicate IsFirstTruthy(sources: seq<Option<string>>, i: int) {
    0 <= i < |sources| && Truthy(sources[i]) && forall j :: 0 <= j < i ==> !Truthy(sources[j])
  }

  /** A key from the first secret wins over every other source. */
  lemma PrimarySecretWins(src: KeySources)
    requires Truthy(src.secretApiKey)
    ensures ResolveApiKey(src) == Success(src.secretApiKey.value)
  {
    var r := ResolveApiKey(src);
    var i :| IsFirstTruthy(src.InOrder(), i) && r.value == src.InOrder()[i].value;
    assert i == 0;
  }
}
