/**
  The configuration helpers of knative-operator/pkg/common/util.go:
  `Configure`, which sets a value in a KnativeServing's nested config map only
  when the key is not yet there, and `buildImageOverrideMapFromEnviron`, which
  collects image overrides from `IMAGE_<name>=<image>` environment entries.
 */
module Common {
  import opened Wrappers

  /** An inner config map; `None` is Go's nil map. */
  type Section = Option<map<string, string>>

  /** `Spec.Config` of a KnativeServing; `None` is Go's nil map. */
  type Config = Option<map<string, Section>>

  /** The entry stored under `cm` (`None` when the section is absent). */
  function SectionOf(config: Config, cm: string): Option<Section>
  {
    if config.Some? && cm in config.value then Some(config.value[cm]) else None
  }

  /** Go's `Config[cm][key]` lookup, which reads nil maps as empty. */
  function Lookup(config: Config, cm: string, key: string): Option<string>
  {
    match SectionOf(config, cm)
    case Some(Some(m)) => if key in m then Some(m[key]) else None
    case _ => None
  }

  /** The KnativeServing resource, reduced to the field `Configure` edits. */
  class KnativeServing {
    var config: Config

    constructor (config: Config)
      ensures this.config == config
    {
      this.config := config;
    }
  }

  /** The config map after `Configure(ks, cm, key, value)` and the boolean it returns. */
  function Configured(config: Config, cm: string, key: string, value: string): (r: (Config, bool))
    ensures r.0.Some?
    ensures r.1 <==> Lookup(config, cm, key).None?
    ensures Lookup(r.0, cm, key) == if r.1 then Some(value) else Lookup(config, cm, key)
    ensures r.1 ==> SectionOf(r.0, cm).Some? && SectionOf(r.0, cm).value.Some?
    ensures !r.1 ==> SectionOf(r.0, cm) == SectionOf(config, cm)
    ensures forall c :: c != cm ==> SectionOf(r.0, c) == SectionOf(config, c)
  {
    var m := if config.None? then map[] else config.value;
    if Lookup(config, cm, key).None? then
      var inner := if cm in m && m[cm].Some? then m[cm].value else map[];
      (Some(m[cm := Some(inner[key := value])]), true)
    else
      (Some(m), false)
  }

  /** `Configure`: sets `Config[cm][key] = value` unless the key is already present;
      reports whether it wrote. */
  method Configure(ks: KnativeServing, cm: string, key: string, value: string) returns (wrote: bool)
    modifies ks
    ensures (ks.config, wrote) == Configured(old(ks.config), cm, key, value)
  {
    if ks.config.None? {
      ks.config := Some(map[]);
    }
    if Lookup(ks.config, cm, key).None? {
      ghost var m := ks.config.value;
      if cm !in ks.config.value || ks.config.value[cm].None? {
        ks.config := Some(ks.config.value[cm := Some(map[])]);
      }
      var inner := ks.config.value[cm].value;
      ks.config := Some(ks.config.value[cm := Some(inner[key := value])]);
      assert ks.config.value == m[cm := Some(inner[key := value])];
      return true;
    }
    return false;
  }

  /** No other (section, key) pair changes. */
  lemma ConfigureFrame(config: Config, cm: string, key: string, value: string, cm': string, key': string)
    requires cm' != cm || key' != key
    ensures Lookup(Configured(config, cm, key, value).0, cm', key') == Lookup(config, cm', key')
  {
    var r := Configured(config, cm, key, value).0;
    if cm' == cm && r != config {
      var m := if config.None? then map[] else config.value;
      var inner := if cm in m && m[cm].Some? then m[cm].value else map[];
      assert Lookup(config, cm, key).None?;
      assert r == Some(m[cm := Some(inner[key := value])]);
    }
  }

  /** A second call with the same arguments writes nothing and returns false. */
  lemma ConfigureIdempotent(config: Config, cm: string, key: string, value: string)
    ensures var (c1, _) := Configured(config, cm, key, value);
            Configured(c1, cm, key, value) == (c1, false)
  {
    var (c1, _) := Configured(config, cm, key, value);
    assert Lookup(c1, cm, key).Some?;
  }

  /** On an empty config, a first call writes (true), a second does not (false),
      and both leave the same map. */
  lemma ConfigureTwiceOnNil(cm: string, key: string, value: string)
    ensures Configured(None, cm, key, value).1
    ensures var c1 := Configured(None, cm, key, value).0;
            Configured(c1, cm, key, value) == (c1, false)
            && Lookup(c1, cm, key) == Some(value)
  {
    ConfigureIdempotent(None, cm, key, value);
  }

  // ---- buildImageOverrideMapFromEnviron ----

  predicate HasPrefix(s: string, prefix: string)
  {
    |prefix| <= |s| && s[..|prefix|] == prefix
  }

  /** `strings.SplitN(s, sep, 2)`: the text before the first `sep` and, when
      `sep` occurs, the text after it. */
  function Cut(s: string, sep: char): (r: (string, Option<string>))
    ensures sep in s ==> r.1.Some? && s == r.0 + [sep] + r.1.value && sep !in r.0
    ensures sep !in s ==> r == (s, None)
  {
    if s == [] then ([], None)
    else if s[0] == sep then ([], Some(s[1..]))
    else
      var (before, after) := Cut(s[1..], sep);
      assert s == [s[0]] + s[1..];
      ([s[0]] + before, after)
  }

  /** Cutting `a + [sep] + b` where `a` has no `sep` gives back `a` and `b`. */
  lemma {:induction false} CutJoin(a: string, sep: char, b: string)
    requires sep !in a
    ensures Cut(a + [sep] + b, sep) == (a, Some(b))
  {
    if a != [] {
      CutJoin(a[1..], sep, b);
      assert (a + [sep] + b)[1..] == a[1..] + [sep] + b;
      assert (a + [sep] + b)[0] == a[0] != sep;
      assert a == [a[0]] + a[1..];
    }
  }

  const ImagePrefix: string := "IMAGE_"

  /** The first `_` of an `IMAGE_`-prefixed name is the one of the prefix. */
  lemma CutImageName(name: string)
    requires HasPrefix(name, ImagePrefix)
    ensures '_' in name && Cut(name, '_') == ("IMAGE", Some(name[|ImagePrefix|..]))
  {
    assert name == "IMAGE" + ['_'] + name[|ImagePrefix|..] by {
      assert name[..|ImagePrefix|] == ImagePrefix;
    }
    CutJoin("IMAGE", '_', name[|ImagePrefix|..]);
  }

  /** An environment entry the source can split: one that contains `=`, or whose
      name does not start with `IMAGE_` (the source reads `pair[1]` only then). */
  predicate Splittable(e: string)
  {
    '=' in e || !HasPrefix(e, ImagePrefix)
  }

  /** The override contributed by one environment entry: the name after the
      first `_` and the value after the first `=`, when the name starts with
      `IMAGE_` and the value is not empty. */
  function ImageOverride(e: string): (r: Option<(string, string)>)
    requires Splittable(e)
    ensures r.Some? ==> e == ImagePrefix + r.value.0 + "=" + r.value.1
    ensures r.Some? ==> '=' !in r.value.0 && r.value.1 != ""
  {
    var (name, value) := Cut(e, '=');
    if HasPrefix(name, ImagePrefix) then
      CutImageName(name);
      var key := Cut(name, '_').1.value;
      assert name == ImagePrefix + key by { assert name[..|ImagePrefix|] == ImagePrefix; }
      if value.value != "" then Some((key, value.value)) else None
    else
      None
  }

  /** `IMAGE_<key>=<value>` yields `(key, value)` unless the value is empty; the
      key keeps any later `_` and the value any later `=`. */
  lemma ImageOverrideOf(key: string, value: string)
    requires '=' !in key
    ensures Splittable(ImagePrefix + key + "=" + value)
    ensures ImageOverride(ImagePrefix + key + "=" + value)
            == if value == "" then None else Some((key, value))
  {
    var e := ImagePrefix + key + "=" + value;
    var name := ImagePrefix + key;
    assert '=' !in name;
    CutJoin(name, '=', value);
    assert e == name + ['='] + value;
    assert HasPrefix(name, ImagePrefix) by { assert name[..|ImagePrefix|] == ImagePrefix; }
    CutJoin("IMAGE", '_', key);
    assert name == "IMAGE" + ['_'] + key;
  }

  /** An entry that is not `IMAGE_`-prefixed contributes nothing. */
  lemma NonImageEntryIgnored(e: string)
    requires !HasPrefix(Cut(e, '=').0, ImagePrefix)
    ensures Splittable(e) && ImageOverride(e).None?
  {
    if '=' !in e { assert Cut(e, '=').0 == e; }
  }

  /** The reference meaning of the override map: the value of the last entry
      that contributes an override for `k`. */
  function LastOverride(environ: seq<string>, k: string): Option<string>
    requires forall i :: 0 <= i < |environ| ==> Splittable(environ[i])
  {
    if environ == [] then None
    else
      var e := environ[|environ| - 1];
      match ImageOverride(e)
      case Some((k', v)) => if k' == k then Some(v) else LastOverride(environ[..|environ| - 1], k)
      case None => LastOverride(environ[..|environ| - 1], k)
  }

  /** `buildImageOverrideMapFromEnviron`, with the process environment passed in. */
  method BuildImageOverrideMap(environ: seq<string>) returns (overrides: map<string, string>)
    requires forall i :: 0 <= i < |environ| ==> Splittable(environ[i])
    ensures forall k :: k in overrides <==> LastOverride(environ, k).Some?
    ensures forall k :: k in overrides ==> overrides[k] == LastOverride(environ, k).value
  {
    overrides := map[];
    for n := 0 to |environ|
      invariant forall k :: k in overrides <==> LastOverride(environ[..n], k).Some?
      invariant forall k :: k in overrides ==> overrides[k] == LastOverride(environ[..n], k).value
    {
      assert environ[..n + 1][..n] == environ[..n];
      var (name, value) := Cut(environ[n], '=');
      if HasPrefix(name, ImagePrefix) {
        CutImageName(name);
        var key := Cut(name, '_').1.value;
        if value.value != "" {
          overrides := overrides[key := value.value];
        }
      }
    }
    assert environ[..|environ|] == environ;
  }

  predicate AllSplittable(environ: seq<string>)
  {
    forall i :: 0 <= i < |environ| ==> Splittable(environ[i])
  }

  /** Entry `e` gives no override for `k`. */
  predicate NoOverrideFor(e: string, k: string)
    requires Splittable(e)
  {
    ImageOverride(e).None? || ImageOverride(e).value.0 != k
  }

  /** Entries that give no override for `k` can be dropped from the end. */
  lemma {:induction false} NoOverrideTail(p: seq<string>, t: seq<string>, k: string)
    requires AllSplittable(p) && AllSplittable(t)
    requires forall i :: 0 <= i < |t| ==> NoOverrideFor(t[i], k)
    ensures AllSplittable(p + t) && LastOverride(p + t, k) == LastOverride(p, k)
    decreases |t|
  {
    assert forall i :: 0 <= i < |p + t| ==> (p + t)[i] == if i < |p| then p[i] else t[i - |p|];
    if t == [] {
      assert p + t == p;
    } else {
      var t' := t[..|t| - 1];
      assert (p + t)[..|p + t| - 1] == p + t';
      assert (p + t)[|p + t| - 1] == t[|t| - 1];
      NoOverrideTail(p, t', k);
    }
  }

  /** When two entries give the same key, the later one wins, wherever the two
      stand, as long as no entry after the later one gives that key too. */
  lemma LaterEntryWins(a: seq<string>, mid: seq<string>, tail: seq<string>, key: string, v1: string, v2: string)
    requires '=' !in key && v2 != ""
    requires AllSplittable(a) && AllSplittable(mid) && AllSplittable(tail)
    requires forall i :: 0 <= i < |tail| ==> NoOverrideFor(tail[i], key)
    ensures var env := a + [ImagePrefix + key + "=" + v1] + mid + [ImagePrefix + key + "=" + v2] + tail;
            AllSplittable(env) && LastOverride(env, key) == Some(v2)
  {
    ImageOverrideOf(key, v1);
    ImageOverrideOf(key, v2);
    var p := a + [ImagePrefix + key + "=" + v1] + mid + [ImagePrefix + key + "=" + v2];
    assert forall i :: 0 <= i < |p| ==> Splittable(p[i]) by {
      forall i | 0 <= i < |p| ensures Splittable(p[i]) {
        if i < |a| { assert p[i] == a[i]; }
        else if i == |a| { }
        else if i < |a| + 1 + |mid| { assert p[i] == mid[i - |a| - 1]; }
      }
    }
    NoOverrideTail(p, tail, key);
    assert p[|p| - 1] == ImagePrefix + key + "=" + v2;
  }

  lemma AllSplittableConcat(x: seq<string>, y: seq<string>)
    requires AllSplittable(x) && AllSplittable(y)
    ensures AllSplittable(x + y)
  {
    forall i | 0 <= i < |x + y| ensures Splittable((x + y)[i]) {
      if i < |x| { assert (x + y)[i] == x[i]; } else { assert (x + y)[i] == y[i - |x|]; }
    }
  }

  /** An entry with an empty value changes nothing, wherever it stands. */
  lemma {:induction false} EmptyValueSkipped(a: seq<string>, b: seq<string>, key: string, k: string)
    requires '=' !in key
    requires AllSplittable(a) && AllSplittable(b)
    ensures var env := a + [ImagePrefix + key + "="] + b;
            AllSplittable(env) && AllSplittable(a + b) && LastOverride(env, k) == LastOverride(a + b, k)
    decreases |b|
  {
    var e := ImagePrefix + key + "=";
    ImageOverrideOf(key, "");
    assert e == ImagePrefix + key + "=" + "";
    AllSplittableConcat(a, [e]);
    AllSplittableConcat(a + [e], b);
    AllSplittableConcat(a, b);
    var env := a + [e] + b;
    if b == [] {
      assert env == a + [e] && a + b == a;
      assert env[..|env| - 1] == a;
    } else {
      var b' := b[..|b| - 1];
      assert AllSplittable(b') by { forall i | 0 <= i < |b'| ensures Splittable(b'[i]) { assert b'[i] == b[i]; } }
      EmptyValueSkipped(a, b', key, k);
      assert env[..|env| - 1] == a + [e] + b';
      assert (a + b)[..|a + b| - 1] == a + b';
      assert env[|env| - 1] == b[|b| - 1] == (a + b)[|a + b| - 1];
    }
  }
}
