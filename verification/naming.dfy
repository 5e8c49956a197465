/** vCluster services and the names of the provisioning clusters made for them. */
module Naming {
  import opened Text
  import opened Constants
  import Api

  /** A service labelled `app=vcluster` on a host cluster. */
  datatype Service = Service(namespace: string, name: string, uid: string, deleting: bool, clusterIP: string,
                             labels: Api.Labels, annotations: map<string, string>)

  /** A name to use as it is, or a generateName base the server completes with five characters. */
  datatype NameChoice = NameChoice(base: string, generate: bool)

  function DefaultName(host: string, namespace: string, name: string): string {
    host + "-" + namespace + "-" + name
  }

  /** None is the error of an annotation that is too long. */
  function GetProvisioningClusterName(host: string, svc: Service): Option<NameChoice> {
    var customName := Lookup(svc.annotations, ANNOTATION_CUSTOM_NAME);
    var customPrefix := Lookup(svc.annotations, ANNOTATION_CUSTOM_PREFIX);
    var name := DefaultName(host, svc.namespace, svc.name);
    if customName != "" then
      if |customName| > 63 then None else Some(NameChoice(customName, false))
    else if customPrefix != "" then
      var hasHyphen := HasSuffix(customPrefix, "-");
      if |customPrefix| > (if hasHyphen then 58 else 57) then None
      else Some(NameChoice(if hasHyphen then customPrefix else customPrefix + "-", true))
    else if |name| <= 63 then Some(NameChoice(name, false))
    else Some(NameChoice(if HasSuffix(name[..57], "-") then name[..57] else name[..57] + "-", true))
  }

  /** The names the server may give an object created under this choice. */
  predicate NameFits(choice: NameChoice, name: string) {
    if choice.generate then Api.Generated(choice.base, name) else name == choice.base
  }

  function Hyphenated(s: string): string {
    if s != "" && s[|s| - 1] == '-' then s else s + "-"
  }

  predicate CompletedByFive(base: string, name: string) {
    |name| == |base| + 5 && name[..|base|] == base
  }

  /** The names a service's cluster may have, as its annotations ask for: the custom name as it is written; or the
      custom prefix, hyphenated and completed by five characters; or else host, namespace and name with hyphens
      between them, cut to 57 octets, hyphenated and completed where that is longer than 63. */
  predicate MayBeNamed(host: string, svc: Service, name: string) {
    var custom := Lookup(svc.annotations, ANNOTATION_CUSTOM_NAME);
    var prefix := Lookup(svc.annotations, ANNOTATION_CUSTOM_PREFIX);
    var plain := host + "-" + svc.namespace + "-" + svc.name;
    if custom != "" then name == custom && |name| <= 63
    else if prefix != "" then CompletedByFive(Hyphenated(prefix), name) && |name| <= 63
    else if |plain| <= 63 then name == plain
    else CompletedByFive(Hyphenated(plain[..57]), name)
  }

  /** A cluster gets one of these names and no other. */
  lemma NamedAsAsked(host: string, svc: Service, name: string)
    ensures (GetProvisioningClusterName(host, svc).Some? && NameFits(GetProvisioningClusterName(host, svc).value, name))
        <==> MayBeNamed(host, svc, name)
  {
    hide Lookup;
    HyphenSuffix(Lookup(svc.annotations, ANNOTATION_CUSTOM_PREFIX));
    if |DefaultName(host, svc.namespace, svc.name)| > 63 {
      HyphenSuffix(DefaultName(host, svc.namespace, svc.name)[..57]);
    }
  }

  lemma HyphenSuffix(s: string)
    ensures Hyphenated(s) == if HasSuffix(s, "-") then s else s + "-"
  {
    if HasSuffix(s, "-") {
      assert s[|s| - 1..][0] == '-';
    } else if s != "" {
      assert s[|s| - 1..] == [s[|s| - 1]];
    }
  }

  /** Every accepted name is within the 63 octets of section 2.3.4 of RFC 1035 once the server has completed
      it, and the chosen base survives whole, hyphen included, because it fits generateName's 58 octets. */
  lemma NamesFitAndKeepTheirBase(host: string, svc: Service, name: string)
    requires GetProvisioningClusterName(host, svc).Some?
    requires NameFits(GetProvisioningClusterName(host, svc).value, name)
    ensures |name| <= 63
    ensures HasPrefix(name, GetProvisioningClusterName(host, svc).value.base)
    ensures GetProvisioningClusterName(host, svc).value.generate ==>
              |name| == |GetProvisioningClusterName(host, svc).value.base| + 5
              && HasSuffix(GetProvisioningClusterName(host, svc).value.base, "-")
  {
    var base := GetProvisioningClusterName(host, svc).value.base;
    assert |base| <= 63;
    if GetProvisioningClusterName(host, svc).value.generate {
      assert base[|base| - 1..] == "-";
      assert Api.Truncated(base) == base;
    }
  }

  /** Which annotations are refused: exactly those that could not be kept within 63 octets. */
  lemma NameRefusedExactly(host: string, svc: Service)
    ensures GetProvisioningClusterName(host, svc).None? <==>
      var custom := Lookup(svc.annotations, ANNOTATION_CUSTOM_NAME);
      var prefix := Lookup(svc.annotations, ANNOTATION_CUSTOM_PREFIX);
      if custom != "" then |custom| > 63
      else prefix != "" && |prefix + if HasSuffix(prefix, "-") then "" else "-"| + 5 > 63
  {
  }

  /** `c` runs past `a` and its hyphen, and the rest of `c` is what `b` has in front of `d`. */
  predicate Overlaps(a: string, b: string, c: string, d: string) {
    a + "-" <= c && b == c[|a| + 1..] + "-" + d
  }

  lemma HyphenJoinOneWay(a: string, b: string, c: string, d: string)
    requires a + "-" + b == c + "-" + d && |a| < |c|
    ensures Overlaps(a, b, c, d)
  {
    var s := a + "-" + b;
    assert s == a + ("-" + b);
    assert s[..|a| + 1] == a + "-" && s[..|c|] == c;
    assert c[..|a| + 1] == s[..|c|][..|a| + 1] == s[..|a| + 1];
    assert b == s[|a| + 1..];
    assert s[|a| + 1..] == c[|a| + 1..] + "-" + d;
  }

  lemma OverlapCollides(a: string, b: string, c: string, d: string)
    requires Overlaps(a, b, c, d)
    ensures a + "-" + b == c + "-" + d
  {
    var p := c[|a| + 1..];
    assert c == a + "-" + p;
    assert a + "-" + (p + "-" + d) == (a + "-" + p) + "-" + d;
  }

  /** Joining with a hyphen is not injective; two pairs collide exactly when they are equal or overlap. */
  lemma HyphenJoinExact(a: string, b: string, c: string, d: string)
    ensures a + "-" + b == c + "-" + d
       <==> (a == c && b == d) || Overlaps(a, b, c, d) || Overlaps(c, d, a, b)
  {
    if a + "-" + b == c + "-" + d {
      if |a| < |c| {
        HyphenJoinOneWay(a, b, c, d);
      } else if |c| < |a| {
        HyphenJoinOneWay(c, d, a, b);
      } else {
        var s, t := a + "-" + b, c + "-" + d;
        assert a == s[..|a|] == t[..|c|] == c;
        assert b == s[|a| + 1..] == t[|c| + 1..] == d;
      }
    }
    if Overlaps(a, b, c, d) {
      OverlapCollides(a, b, c, d);
    }
    if Overlaps(c, d, a, b) {
      OverlapCollides(c, d, a, b);
    }
  }

  /** Two services of one host share their default cluster name exactly when their namespace and name
      overlap at a hyphen, for instance `a/b-c` and `a-b/c`. */
  lemma DefaultNamesCollideExactly(host: string, ns: string, name: string, ns': string, name': string)
    ensures DefaultName(host, ns, name) == DefaultName(host, ns', name')
       <==> (ns == ns' && name == name') || Overlaps(ns, name, ns', name') || Overlaps(ns', name', ns, name)
  {
    var s, t := ns + "-" + name, ns' + "-" + name';
    var h := host + "-";
    assert DefaultName(host, ns, name) == h + s && DefaultName(host, ns', name') == h + t;
    assert (h + s)[|h|..] == s && (h + t)[|h|..] == t;
    HyphenJoinExact(ns, name, ns', name');
  }
}
