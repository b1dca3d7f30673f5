/** `find_key`: reading one variable out of the environment, given as a list of
    (name, value) pairs. */
module Config {
  import opened Wrappers

  /** The text of the panic raised for a missing variable. */
  function MissingKey(key: string): string
  {
    "couldn't find '" + key + "' in the environment variables"
  }

  predicate HasKey(vars: seq<(string, string)>, key: string)
  {
    exists i :: 0 <= i < |vars| && vars[i].0 == key
  }

  /** `find_key(vars, key)`: the value of the first pair named `key`. The panic for a missing
      variable is the `Err` result, carrying the panic's text. */
  function FindKey(vars: seq<(string, string)>, key: string): (r: Result<string, string>)
    ensures r.Ok? <==> HasKey(vars, key)
    ensures r.Ok? ==> exists i :: 0 <= i < |vars| && vars[i] == (key, r.value)
                                  && forall j :: 0 <= j < i ==> vars[j].0 != key
    ensures r.Err? ==> r.error == MissingKey(key)
  {
    if |vars| == 0 then Err(MissingKey(key))
    else if vars[0].0 == key then Ok(vars[0].1)
    else
      var r := FindKey(vars[1..], key);
      if r.Ok? then
        var i :| 0 <= i < |vars[1..]| && vars[1..][i] == (key, r.value)
                 && forall j :: 0 <= j < i ==> vars[1..][j].0 != key;
        assert vars[i + 1] == (key, r.value);
        r
      else
        assert forall i :: 0 < i < |vars| ==> vars[i] == vars[1..][i - 1];
        r
  }

  /** Pairs after the first one with the key do not change the result. */
  lemma {:induction false} FindKeyIgnoresLater(vars: seq<(string, string)>, later: seq<(string, string)>, key: string)
    requires HasKey(vars, key)
    ensures FindKey(vars + later, key) == FindKey(vars, key)
  {
    assert (vars + later)[0] == vars[0];
    if vars[0].0 != key {
      var i :| 0 <= i < |vars| && vars[i].0 == key;
      assert vars[1..][i - 1].0 == key;
      assert (vars + later)[1..] == vars[1..] + later;
      FindKeyIgnoresLater(vars[1..], later, key);
    }
  }
}
