# IP-pool resource adapter model

A Dafny model of the translation layer of a Terraform provider resource that
manages Calico IP pools (`calico/resource_ippool.go`). The adapter does three things:

- it decodes the configured encapsulation mode strings into the pool API's
  mode enum (`getIPIPMode`, `getVXLANMode`);
- it translates between the flat configuration record (a `metadata` block and
  a `spec` block) and the typed pool object (`setIPPoolAttributes`,
  `setResourceAttributes`, `expandStringMap`), and it validates annotation
  keys (`validateAnnotations`);
- its lifecycle operations (`resourceIPPoolCreate`, `Read`, `Update` and
  `Delete`, plus the existence check `resourceIPPoolExists` that Read calls
  first) make one or two pool API calls; Create, Update and Read may update
  the local resource identifier, and Delete never does.

Modules:

- `Wrappers` (`wrappers.dfy`): `Option` and `Result`.
- `Modes` (`modes.dfy`): the `Mode` enum, its spelling `ModeName`, and the two decoders.
- `Annotations` (`annotations.dfy`): the generic map value `Value`, the map conversion, ASCII `Lower`, and the collecting key validation.
- `IPPool` (`ippool.dfy`): the `Config`, `Metadata`, `SpecBlock`, `Pool` and `PoolSpec` records, the defaults, `ExpandPool` (setIPPoolAttributes) and `FlattenPool` (setResourceAttributes), and the round trips.
- `Lifecycle` (`lifecycle.dfy`): the lifecycle operations as pure functions over an abstract remote.

Several things are inputs to the model rather than computed by it:

- Each remote interaction is an `Attempt`. It holds the outcome of building the API client and the pool API's reply.
- `Read` takes two attempts: one for the existence check and one for its own fetch. The remote pool may change between them.
- The qualified-name rule is a function-typed parameter `qualifiedName`.
- Go's random map iteration order is a parameter `order` that lists every key exactly once.
- Create, Read, Update and Delete return a `Step`: the new resource data, the error diagnostics, and the pool API requests issued. The existence check returns an `Existence`: the found flag, the error, and the requests issued.

The pool API answers a missing pool with its own "not found" error, but the
existence check does not tell that answer apart from any other failed fetch. So reading a
pool that was deleted outside the adapter reports an error. It does not clear
the identifier, although Read has a branch written to do exactly that. The model
follows the code; see Findings.

## Model

| member | source | states |
|---|---|---|
| `Modes.GetIPIPMode` | calico/resource_ippool.go:279-287 | an accepted mode string decodes to the mode with that spelling; any other string decodes to Never; only a string spelling a non-Never mode decodes to a non-Never mode |
| `Modes.GetVXLANMode` | calico/resource_ippool.go:269-277 | the same three facts for the VXLAN decoder |
| `Modes.IPIPModeCases` | calico/resource_ippool.go:280-286 | Always exactly for "Always", CrossSubnet exactly for "CrossSubnet", Never for every other string including "Never", "" and "always" |
| `Modes.VXLANModeLikeIPIPMode` | calico/resource_ippool.go:269-287 | both decoders agree on every input |
| `Modes.DecodeModeName` | calico/resource_ippool.go:269-287 | decoding the spelling of any mode yields that mode, under both decoders |
| `Modes.NameOfDecodedMode` | calico/resource_ippool.go:104-112 | decoding and re-spelling returns the input exactly when it is one of the three accepted mode strings |
| `Modes.ModeNamesValidAndDistinct` | calico/resource_ippool.go:104 | every mode is spelled by an accepted string, and distinct modes have distinct spellings |
| `Annotations.Lower` | calico/resource_ippool.go:40 | the lower-cased key has the same length, contains no ASCII upper-case letter, maps each of A-Z to its lower-case letter and keeps every other character |
| `Annotations.ExpandStringMap` | calico/resource_ippool.go:179-185 | the string map has exactly the input's keys, and each key maps to the string its generic value holds |
| `Annotations.FlattenStringMap` | calico/resource_ippool.go:159 | storing the pool's annotations keeps the key set and wraps each value as a string |
| `Annotations.ExpandFlattenedMap` | calico/resource_ippool.go:179-185 | expanding a flattened string map returns it unchanged |
| `Annotations.FlattenExpandedMap` | calico/resource_ippool.go:179-185 | flattening an expanded all-string map returns it unchanged |
| `Annotations.ValidateAnnotations` | calico/resource_ippool.go:37-48 | no warnings; the errors are each key's messages in visiting order; no errors iff every lower-cased key passes; every message of every failing key is reported; every error names a key of the map and a message the rule gave for it; the errors about each key are exactly its messages, in order |
| `Annotations.ExpectedErrorsSound` | calico/resource_ippool.go:39-45 | each collected error carries the attribute, a visited key, and a message the rule gave for that key |
| `Annotations.ExpectedErrorsComplete` | calico/resource_ippool.go:39-45 | no short-circuit: every message for every visited key is collected |
| `Annotations.ExpectedErrorsPerKey` | calico/resource_ippool.go:39-45 | with distinct keys, the errors about a key are exactly one per message of that key, in message order |
| `Annotations.ExpectedErrorsMeaning` | calico/resource_ippool.go:37-48 | for an order that visits each key of the map once: no errors iff every lower-cased key passes, every message of every key is reported, nothing else is, and the errors about each key are exactly its messages |
| `IPPool.ExpandPool` | calico/resource_ippool.go:187-204 | the pool built from any expandable record, written back, is the record's normal form: its first metadata block and first spec block (zero values when absent), with each mode string replaced by the spelling of its decoded mode |
| `IPPool.FlattenPool` | calico/resource_ippool.go:156-177 | the record written from any pool has exactly one metadata block and one spec block, string annotations, and both modes spelled by accepted mode strings |
| `IPPool.ExpandThenFlatten` | calico/resource_ippool.go:156-204 | for a record with one block of each kind, string annotations and accepted mode strings, expanding to a pool and flattening back reproduces every field: name, resource_version, annotations, cidr, block_size, both modes, nat_outgoing, disabled, disable_bgp_export |
| `IPPool.FlattenThenExpand` | calico/resource_ippool.go:156-204 | flattening any pool gives such a record, and expanding it gives back the same pool on the ten fields the adapter manages |
| `IPPool.ExpandThenFlattenNormalizes` | calico/resource_ippool.go:156-204 | for any expandable record the round trip keeps only the first block of each kind, with zero values for an absent block, and replaces unrecognised mode strings by "Never" |
| `IPPool.NormalizeFixesCanonical` | calico/resource_ippool.go:99-113 | the round trip is lossless exactly on records with one block of each kind, string annotations and accepted mode strings |
| `IPPool.DefaultsExpand` | calico/resource_ippool.go:18-25 | a spec block holding only the defaults expands to block size 26, both modes Never, and all flags false |
| `Lifecycle.Exists` | calico/resource_ippool.go:206-230 | the pool exists iff the client was built and the fetch succeeded; a positive answer has no error; a negative answer always carries the forwarded error, so it is never "absent without error"; one fetch by the configured name is issued iff the client was built |
| `Lifecycle.Read` | calico/resource_ippool.go:232-267 | no diagnostics iff both client set-ups and both fetches succeed; on success the resource data is exactly the flattened fetched pool, with the id set to its name; on failure the resource data is unchanged and the one diagnostic is the first error met, forwarded unchanged: the existence check's, the second client set-up's, or the second fetch's; the second fetch is issued only after a positive existence check |
| `Lifecycle.Create` | calico/resource_ippool.go:289-311 | submits the expanded pool iff the client was built; the id becomes the configured name exactly on success and stays unchanged on any error, with one diagnostic that is the client set-up error or else the pool API's error, forwarded unchanged; the configuration is untouched |
| `Lifecycle.Update` | calico/resource_ippool.go:313-335 | the same as Create, with a whole-object update of the expanded pool |
| `Lifecycle.Delete` | calico/resource_ippool.go:337-354 | the resource data never changes; one delete by the configured name and no existence pre-check; a client set-up error or the pool API's error is forwarded verbatim as the one diagnostic |
| `Lifecycle.ReadNeverClearsId` | calico/resource_ippool.go:225-241 | a negative existence answer always carries an error, so after Read the id is either unchanged or the fetched pool's name |
| `Lifecycle.ReadOfDeletedPoolIsError` | calico/resource_ippool.go:219-241 | when the pool API answers "not found", Read reports that error and keeps the stale non-empty id |
| `Lifecycle.ExistsDetectingNotFound` | calico/resource_ippool.go:221-229 | the corrected check: "not found" is a negative answer with no error, other failures keep their error, which is the client set-up error or the pool API's error unchanged |
| `Lifecycle.ReadDetectingDeletion` | calico/resource_ippool.go:238-241 | the corrected Read: a result without diagnostics either clears the id or comes from a successful fetch |
| `Lifecycle.ReadDetectingDeletionClearsId` | calico/resource_ippool.go:238-241 | with the corrected check, a "not found" answer clears the id, gives no diagnostics, and skips the second fetch |
| `Lifecycle.ReadDetectingDeletionAgrees` | calico/resource_ippool.go:232-267 | except on a "not found" answer, the corrected Read equals Read |
| `Lifecycle.ReadForgetsLocalState` | calico/resource_ippool.go:254-262 | a successful Read retains nothing of the prior local state: any two resource data reading the same pool end identical |
| `Lifecycle.ReadIdempotent` | calico/resource_ippool.go:254-262 | reading again against the same pool leaves the refreshed resource data unchanged (a corollary of ReadForgetsLocalState) |
| `Lifecycle.CreateThenRead` | calico/resource_ippool.go:297-308 | Create and then Read, when the pool API stores the submitted pool with a new resource version: the id is the submitted name, the record is the submitted one with only resource_version replaced, and both fetches of the refresh ask for the submitted name |
| `Lifecycle.UpdateThenRead` | calico/resource_ippool.go:321-332 | Update and then Read, when the pool API stores the submitted replacement with a new resource version: the id is the submitted name, the record is the submitted one with only resource_version replaced, and both fetches of the refresh ask for the submitted name |

## Findings

| source | as written | input that shows it | evidently intended | confidence | as-written member | corrected member |
|---|---|---|---|---|---|---|
| calico/resource_ippool.go:225-241 | `resourceIPPoolExists` returns `(false, err)` for every failed fetch, including "not found". So the `!exists` branch of `resourceIPPoolRead`, which clears the id and returns no diagnostics, cannot be reached (the source marks the spot with a fixme) | the existence check's fetch fails with NotFound for a pool deleted outside the adapter | a missing pool clears the id and Read succeeds, so the caller plans to re-create it | high; not executed | `Lifecycle.ReadOfDeletedPoolIsError` | `Lifecycle.ReadDetectingDeletionClearsId` |

The corrected pair `ExistsDetectingNotFound` / `ReadDetectingDeletion`
differs from the code only on a "not found" answer (`ReadDetectingDeletionAgrees`).
So `ReadForgetsLocalState`, `ReadIdempotent`, `CreateThenRead` and `UpdateThenRead` hold for it
on every other input.

## Left out

- Schema enforcement: `ForceNew`, `ConflictsWith`, `MaxItems`, `Required`, `Default` and `StringInSlice` (lines 50-137) are enforced by the Terraform SDK, which is not part of this model. The defaults appear as constants and `DefaultSpec`. The accepted mode strings appear as `ValidModeNames`, and the round trip assumes them through `Canonical`. The rule that the two modes conflict, and the rule that cidr and block_size force re-creation, are not modelled.
- The mutex in `getIPPool` (lines 141-142) is not modelled: it only serialises concurrent fetches. The `debug` logging is not modelled either.
- `main.go` (plugin serving, flags, klog set-up) is process plumbing and is not part of this model.
- The Kubernetes clientset calls (lines 145, 303, 327, 348) are foreign network I/O. Their answers are the `Attempt` inputs. The pool API's server-side behaviour is not modelled: its validation, its name rules and its assignment of resource versions.
- `GetCalicoConfiguration` is not part of this model. Only its success or error enters, as `Attempt.client`.
- The error returns of `d.Set` in `setResourceAttributes` (lines 160-162, 173-175) are not modelled, because the values written always fit the schema. The same holds for the matching `diag.FromErr` branch in Read (lines 259-262). In the code, `SetId` runs before these calls.
- `setIPPoolAttributes` always returns nil. So the error branches after it in Create and Update (lines 299-301, 323-325) are not modelled.
- The text of the validation errors is not modelled. `fmt.Errorf("%s (%q) %s", …)` is kept as the structured `AnnotationError`, without Go's `%q` quoting.
- `Annotations.Lower`: Unicode lower-casing is not modelled. Like `strings.ToLower` it maps A-Z to a-z, but it leaves every non-ASCII character unchanged.
- The grammar of `IsQualifiedName` is not modelled. It is the parameter `qualifiedName`, applied to the lower-cased key.
- Go type-assertion panics are not modelled. They appear as the precondition `Expandable`: the annotations read must all be strings. `ValidateAnnotations` takes its `value` argument as a map, so the assertion in line 38 cannot fail.
- `IPPool.FlattenThenExpand`: the pool object's other metadata and spec fields are not modelled, for example uid, creation timestamp, labels, nodeSelector and allowedUses. `setResourceAttributes` drops them when it flattens a fetched pool, and Create and Update submit them as zero values because `setIPPoolAttributes` starts from an empty object. So the identity holds only on the ten managed fields. In particular, the whole-object Update at line 327 would clear any of those fields set outside the adapter.
- `IPPool.FlattenPool`: in the pool API both mode fields are plain strings. The model's enum cannot represent a fetched pool whose mode field is some other string, such as the empty string. Flattening such a pool would write that string back unchanged.
