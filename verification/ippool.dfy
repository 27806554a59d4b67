/**
 The two records the adapter translates between (calico/resource_ippool.go):
 the flat configuration record with its `metadata` and `spec` blocks, and the
 typed pool object of the pool API. `ExpandPool` is setIPPoolAttributes,
 `FlattenPool` is the record written by setResourceAttributes.
 */
module IPPool {
  import opened Modes
  import opened Annotations

  /** One `metadata` block of the configuration. */
  datatype Metadata = Metadata(name: string, resourceVersion: string, annotations: map<string, Value>)

  /** One `spec` block of the configuration; the modes are still strings here. */
  datatype SpecBlock = SpecBlock(
    cidr: string,
    blockSize: int,
    ipipMode: string,
    vxlanMode: string,
    natOutgoing: bool,
    disabled: bool,
    disableBgpExport: bool)

  /** The configuration record: both blocks are lists, and only their first entries are read. */
  datatype Config = Config(metadata: seq<Metadata>, spec: seq<SpecBlock>)

  /** The specification part of a pool object. */
  datatype PoolSpec = PoolSpec(
    cidr: string,
    blockSize: int,
    ipipMode: Mode,
    vxlanMode: Mode,
    natOutgoing: bool,
    disabled: bool,
    disableBgpExport: bool)

  /** The fields of a pool object that the adapter reads and writes. */
  datatype Pool = Pool(name: string, resourceVersion: string, annotations: map<string, string>, spec: PoolSpec)

  /** The schema defaults of the optional spec fields (`defaultAttributes`). */
  const DefaultBlockSize: int := 26
  const DefaultIPIPMode: string := "Never"
  const DefaultVXLANMode: string := "Never"
  const DefaultNatOutgoing: bool := false
  const DefaultDisabled: bool := false
  const DefaultDisableBgpExport: bool := false

  /** A spec block in which only the required `cidr` is given and every other field has its default. */
  function DefaultSpec(cidr: string): SpecBlock
  {
    SpecBlock(cidr, DefaultBlockSize, DefaultIPIPMode, DefaultVXLANMode,
              DefaultNatOutgoing, DefaultDisabled, DefaultDisableBgpExport)
  }

  /** What a lookup into an absent first `metadata` block yields: the zero value of each field. */
  const ZeroMetadata: Metadata := Metadata("", "", map[])

  /** What a lookup into an absent first `spec` block yields: the zero value of each field. */
  const ZeroSpec: SpecBlock := SpecBlock("", 0, "", "", false, false, false)

  /** The block that `metadata.0.*` lookups read. */
  function FirstMetadata(c: Config): Metadata
  {
    if |c.metadata| > 0 then c.metadata[0] else ZeroMetadata
  }

  /** The block that `spec.0.*` lookups read. */
  function FirstSpec(c: Config): SpecBlock
  {
    if |c.spec| > 0 then c.spec[0] else ZeroSpec
  }

  /** The configuration can be expanded: the annotations read are all strings. */
  predicate Expandable(c: Config)
  {
    AllStrings(FirstMetadata(c).annotations)
  }

  /** Builds the pool object from the configuration (setIPPoolAttributes). */
  function ExpandPool(c: Config): (p: Pool)
    requires Expandable(c)
    ensures FlattenPool(p) == Normalize(c)
  {
    var md := FirstMetadata(c);
    var sp := FirstSpec(c);
    FlattenExpandedMap(md.annotations);
    Pool(md.name, md.resourceVersion, ExpandStringMap(md.annotations),
         PoolSpec(sp.cidr, sp.blockSize, GetIPIPMode(sp.ipipMode), GetVXLANMode(sp.vxlanMode),
                  sp.natOutgoing, sp.disabled, sp.disableBgpExport))
  }

  /** Writes a pool object back as a configuration record with one block of each kind (setResourceAttributes). */
  function FlattenPool(p: Pool): (c: Config)
    ensures Canonical(c)
  {
    Config(
      [Metadata(p.name, p.resourceVersion, FlattenStringMap(p.annotations))],
      [SpecBlock(p.spec.cidr, p.spec.blockSize, ModeName(p.spec.ipipMode), ModeName(p.spec.vxlanMode),
                 p.spec.natOutgoing, p.spec.disabled, p.spec.disableBgpExport)])
  }

  /**
   The configurations that a round trip reproduces: exactly one block of each
   kind, string annotations and both modes among the accepted spellings.
   */
  predicate Canonical(c: Config)
  {
    && |c.metadata| == 1
    && |c.spec| == 1
    && AllStrings(c.metadata[0].annotations)
    && c.spec[0].ipipMode in ValidModeNames
    && c.spec[0].vxlanMode in ValidModeNames
  }

  /**
   What a round trip does to any expandable configuration: it keeps only the
   first block of each kind (an absent block becomes its zero value) and
   replaces each mode by the spelling of its decoded mode.
   */
  function Normalize(c: Config): (r: Config)
    requires Expandable(c)
    ensures Canonical(r)
  {
    var md := FirstMetadata(c);
    var sp := FirstSpec(c);
    Config([md], [sp.(ipipMode := ModeName(GetIPIPMode(sp.ipipMode)),
                      vxlanMode := ModeName(GetVXLANMode(sp.vxlanMode)))])
  }

  /** Normalizing leaves a configuration unchanged exactly when it is canonical. */
  lemma NormalizeFixesCanonical(c: Config)
    requires Expandable(c)
    ensures Normalize(c) == c <==> Canonical(c)
  {
    if Canonical(c) {
      assert c.metadata == [c.metadata[0]];
      assert c.spec == [c.spec[0]];
    }
  }

  /** Expanding and then flattening any expandable configuration yields its normal form. */
  lemma ExpandThenFlattenNormalizes(c: Config)
    requires Expandable(c)
    ensures FlattenPool(ExpandPool(c)) == Normalize(c)
  {
    FlattenExpandedMap(FirstMetadata(c).annotations);
  }

  /**
   Round trip from the configuration: for a canonical record, expanding into
   a pool and flattening back reproduces every field of the record.
   */
  lemma ExpandThenFlatten(c: Config)
    requires Canonical(c)
    ensures Expandable(c)
    ensures FlattenPool(ExpandPool(c)) == c
  {
    ExpandThenFlattenNormalizes(c);
    NormalizeFixesCanonical(c);
  }

  /**
   Round trip from the pool: flattening any pool object gives a canonical
   record, and expanding that record gives back the same pool object.
   */
  lemma FlattenThenExpand(p: Pool)
    ensures Canonical(FlattenPool(p))
    ensures ExpandPool(FlattenPool(p)) == p
  {
    ExpandFlattenedMap(p.annotations);
    DecodeModeName(p.spec.ipipMode);
    DecodeModeName(p.spec.vxlanMode);
  }

  /**
   A configuration that gives only the metadata and the `cidr` expands to a
   pool with a block size of 26, neither encapsulation, and all three flags off.
   */
  lemma DefaultsExpand(md: Metadata, cidr: string)
    requires AllStrings(md.annotations)
    ensures Expandable(Config([md], [DefaultSpec(cidr)]))
    ensures ExpandPool(Config([md], [DefaultSpec(cidr)])).spec
      == PoolSpec(cidr, 26, Never, Never, false, false, false)
  {
  }
}
