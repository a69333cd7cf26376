/** Provider identities and the two naming strategies that translate between
    a provider's short ("raw") name and its registry-qualified name. */
module ProviderNames {
  import opened Strings

  /** The registry namespace that Terraform 0.13+ assumes for a bare name. */
  const DefaultBaseIdentity: string := "registry.terraform.io/hashicorp/"

  /** The converter is chosen once from the Terraform version: V012 for
      [0.12.0, 0.13.0), V013 for 0.13.0 and later. */
  datatype Converter = V012 | V013 {

    function QualifiedNameToRaw(name: string): (raw: string)
      ensures |raw| <= |name|
      ensures raw == name || (V013? && DefaultBaseIdentity + raw == name)
    {
      match this
      case V012 => name
      case V013 => TrimPrefix(name, DefaultBaseIdentity)
    }

    function RawToQualifiedName(name: string): (qualified: string)
      ensures qualified == name || (V013? && qualified == DefaultBaseIdentity + name)
    {
      match this
      case V012 => name
      // strings.Contains(name, "/") with a one-character needle
      case V013 => if '/' in name then name else DefaultBaseIdentity + name
    }
  }

  /** A provider as seen through one converter. `identity` is meant to hold
      the qualified name; see ProvidersIdentityIsRaw for where it does not. */
  datatype ProviderIdentity = ProviderIdentity(identity: string, converter: Converter) {

    /** Prints as the qualified name. */
    function String(): (s: string)
      ensures s == identity
    {
      QualifiedName()
    }

    /** The stored identity with the converter's namespace removed. */
    function RawName(): (raw: string)
      ensures |raw| <= |identity|
      ensures raw == identity || (converter.V013? && DefaultBaseIdentity + raw == identity)
    {
      converter.QualifiedNameToRaw(identity)
    }

    /** The stored identity, unconverted. */
    function QualifiedName(): (q: string)
      ensures q == identity
    {
      identity
    }
  }

  /** The default namespace contains the separator, so every name it
      qualifies is namespaced. */
  lemma DefaultBaseHasSeparator(name: string)
    ensures '/' in DefaultBaseIdentity + name
  {
    assert (DefaultBaseIdentity + name)[21] == '/';
  }

  /** A name in the default namespace has a separator, so a bare name never
      starts with the default namespace. */
  lemma DefaultBaseNamesHaveSeparator(name: string)
    ensures DefaultBaseIdentity <= name ==> '/' in name
  {
    if DefaultBaseIdentity <= name {
      assert name[21] == DefaultBaseIdentity[21];
    }
  }

  /** Before 0.13 the raw and the qualified name are the same. */
  lemma V012IsIdentity(name: string)
    ensures V012.RawToQualifiedName(name) == name
    ensures V012.QualifiedNameToRaw(name) == name
  {
  }

  /** From 0.13 a bare name is placed in the default namespace, and a name
      that already has a separator is left alone. */
  lemma V013Qualifies(name: string)
    ensures '/' !in name ==> V013.RawToQualifiedName(name) == DefaultBaseIdentity + name
    ensures '/' in name ==> V013.RawToQualifiedName(name) == name
  {
  }

  /** From 0.13 the default namespace is stripped when present; any other
      name is returned unchanged. */
  lemma V013Strips(name: string)
    ensures DefaultBaseIdentity <= name ==>
      V013.QualifiedNameToRaw(name) == name[|DefaultBaseIdentity|..]
    ensures !(DefaultBaseIdentity <= name) ==> V013.QualifiedNameToRaw(name) == name
  {
  }

  /** Qualifying a bare name and converting it back gives the name again,
      under either converter. */
  lemma RawRoundTrip(c: Converter, name: string)
    requires '/' !in name
    ensures c.QualifiedNameToRaw(c.RawToQualifiedName(name)) == name
  {
    if c.V013? {
      TrimPrefixOfConcat(DefaultBaseIdentity, name);
    }
  }

  /** Qualifying is idempotent: a qualified name is qualified already. */
  lemma QualifyIdempotent(c: Converter, name: string)
    ensures c.RawToQualifiedName(c.RawToQualifiedName(name)) == c.RawToQualifiedName(name)
  {
    if c.V013? && '/' !in name {
      DefaultBaseHasSeparator(name);
    }
  }

  /** The qualified names that survive the reverse trip raw -> qualified:
      before 0.13 all of them; from 0.13 the names in the default namespace
      whose remainder has no separator, and the other namespaced names. */
  predicate Canonical(c: Converter, qualified: string)
  {
    c.V012? ||
    if DefaultBaseIdentity <= qualified then '/' !in qualified[|DefaultBaseIdentity|..]
    else '/' in qualified
  }

  /** A canonical qualified name is recovered from its raw form, so looking
      a provider up by the raw name of one of its keys finds that key. */
  lemma QualifiedRoundTrip(c: Converter, qualified: string)
    requires Canonical(c, qualified)
    ensures c.RawToQualifiedName(c.QualifiedNameToRaw(qualified)) == qualified
  {
    if c.V013? && DefaultBaseIdentity <= qualified {
      assert DefaultBaseIdentity + qualified[|DefaultBaseIdentity|..] == qualified;
    }
  }

  /** Only canonical names survive: a name in the default namespace whose
      remainder is namespaced again comes back as that remainder, and a bare
      name comes back in the default namespace. */
  lemma RoundTripOnlyCanonical(c: Converter, qualified: string)
    ensures c.RawToQualifiedName(c.QualifiedNameToRaw(qualified)) == qualified <==> Canonical(c, qualified)
  {
    if Canonical(c, qualified) {
      QualifiedRoundTrip(c, qualified);
    } else if c.V013? && DefaultBaseIdentity <= qualified {
      var raw := qualified[|DefaultBaseIdentity|..];
      assert c.QualifiedNameToRaw(qualified) == raw;
      assert |raw| < |qualified|;
    } else {
      assert c.QualifiedNameToRaw(qualified) == qualified;
      assert |DefaultBaseIdentity + qualified| > |qualified|;
    }
  }

  /** An identity built from a raw name the way ProviderConfigSchema builds
      it reports that raw name back and prints as the qualified name. */
  lemma IdentityOfRawName(c: Converter, raw: string)
    requires '/' !in raw
    ensures var pi := ProviderIdentity(c.RawToQualifiedName(raw), c);
      pi.RawName() == raw && pi.String() == pi.QualifiedName() == c.RawToQualifiedName(raw)
  {
    RawRoundTrip(c, raw);
  }
}
