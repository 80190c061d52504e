/** The caller-supplied values for pattern-restricted types (RenderingConfig.kt). */
module RenderingConfig {
  import opened Wrappers
  import opened Core

  datatype RegexValueForType = RegexValueForType(typeName: QName, valueToRender: string)

  /** The value to render for `typeName`: that of the first entry for `typeName`, None when there is none. */
  function GetRegexValueForType(config: seq<RegexValueForType>, typeName: QName): (r: Option<string>)
    ensures r.None? <==> forall i :: 0 <= i < |config| ==> config[i].typeName != typeName
    ensures r.Some? ==> exists i :: 0 <= i < |config| && config[i].typeName == typeName
                                    && config[i].valueToRender == r.value
                                    && forall j :: 0 <= j < i ==> config[j].typeName != typeName
  {
    if config == [] then None
    else if config[0].typeName == typeName then Some(config[0].valueToRender)
    else
      var r := GetRegexValueForType(config[1..], typeName);
      assert forall i :: 1 <= i < |config| ==> config[i] == config[1..][i - 1];
      r
  }

  /** A non-null result is one of the configured values. */
  lemma {:induction false} ResultIsConfigured(config: seq<RegexValueForType>, typeName: QName)
    requires GetRegexValueForType(config, typeName).Some?
    ensures GetRegexValueForType(config, typeName).value in set e | e in config :: e.valueToRender
  {
    var i :| 0 <= i < |config| && config[i].typeName == typeName
             && config[i].valueToRender == GetRegexValueForType(config, typeName).value;
    assert config[i] in config;
  }

  /** An earlier entry shadows any later one: appending entries never changes a found value. */
  lemma {:induction false} AppendKeepsFoundValue(config: seq<RegexValueForType>, more: seq<RegexValueForType>, typeName: QName)
    requires GetRegexValueForType(config, typeName).Some?
    ensures GetRegexValueForType(config + more, typeName) == GetRegexValueForType(config, typeName)
  {
    if config[0].typeName != typeName {
      assert (config + more)[1..] == config[1..] + more;
      AppendKeepsFoundValue(config[1..], more, typeName);
    }
  }

  /** Appending to a configuration without an entry for `typeName` gives the appended entries' answer. */
  lemma {:induction false} AppendAfterMiss(config: seq<RegexValueForType>, more: seq<RegexValueForType>, typeName: QName)
    requires GetRegexValueForType(config, typeName).None?
    ensures GetRegexValueForType(config + more, typeName) == GetRegexValueForType(more, typeName)
  {
    if config != [] {
      assert (config + more)[1..] == config[1..] + more;
      AppendAfterMiss(config[1..], more, typeName);
    } else {
      assert config + more == more;
    }
  }
}
