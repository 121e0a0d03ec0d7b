# Device selection for the XLA JIT, modelled in Dafny

This project models `tensorflow/compiler/jit/device_util.cc`, the code the XLA JIT uses to decide which device a cluster of operations is compiled for. It has three parts:

- **`jit::DeviceSet`** (`device_set.dfy`, module `DeviceSets`) is a growable bitset of 64-bit words keyed by small device ids. Device id `id` lives in bit `id % 64` of word `id / 64`.
  - `Insert` grows the storage with zero words and sets one bit.
  - `UnionWith` grows to the other set's length and ORs the words, one by one.
  - `IsEmpty` holds when every word is zero.
- **`jit::DeviceInfoCache`** (`device_info_cache.dfy`, module `DeviceInfoCaches`) interns device names into dense ids, handed out in first-seen order. For each id it keeps parallel tables:
  - the name;
  - the device type;
  - the `is_cpu_` and `is_gpu_` flags;
  - the compilation device found in the XLA op registry.
  
  `DebugString` is meant to render a set of ids as their names. As written it renders only the lowest member's name (see "## Findings").
- **`PickDeviceForXlaImpl`** and its entry points `PickDeviceForXla` and `CanPickDeviceForXla` (`pick_device.dfy`, module `PickDevices`) implement the device-selection policy.
  - One short-circuiting pass over the set puts every device into a GPU, CPU or unknown bucket.
  - Conflicts are then checked in a fixed order: two CPUs, two GPUs, two unknown devices, unknown with GPU, and unknown with CPU (only when mixing is not allowed).
  - The pass stops at the first repeated kind, so at most one of the three repeated-kind flags is ever raised. Among repeated kinds, the conflict reported is therefore the first one reached in id order, not the first in the list above. For a CPU at 0, GPUs at 1 and 2 and a CPU at 3, two GPUs are reported.
  - A GPU is picked if there is one, else the unknown device, else the CPU.

`status.dfy` (module `Status`) holds the values that stand in for `absl::optional`, `Status` and `StatusOr`. Every error the core returns is one `Error` constructor, which records its cause rather than its message text. `scenarios.dfy` (module `Scenarios`) strings the operations together on concrete device names.

How the model is built:

- **Storage words.** A 64-bit storage word is modelled as the set of its 1-bit positions (`set<BitIndex>`, positions 0 to 63). Under this model, `|` is set union, `1ull << b` is `{b}`, and `== 0` is the empty set. The set of ids a storage vector denotes is `Elements`.
- **Classes.** The two classes keep the source's fields and update them in place.
  - `DeviceSet.Insert` and `DeviceSet.UnionWith` are stated against the value functions `Inserted` and `Unioned`.
  - `DeviceInfoCache.GetIdFor` is stated against `Intern`, a function from the cache's tables (a `Tables` value) to the result and the new tables. The lemmas about `Intern` carry the invariants the cache keeps.
- **The policy.** `DeviceSet::ForEach` is defined in a header that is not part of this model. It is modelled as it is used here:
  - the ids are visited in ascending order;
  - the visit stops at the first callback that returns `false`.
  
  `BucketDevices` is the pass, and `PassBelow` is its value counterpart. `Decide` is the verdict on the buckets, taken in the source's order. `VerdictMeaning` proves that this verdict matches a set-level statement of the policy: `Feasible`, `Preferred` and `Explains`.
- **External calls** are parameters of `GetIdFor`:
  - the device-name parser `DeviceNameToDeviceType` is a function from a name to an optional type string;
  - `XlaOpRegistry::GetCompilationDevice` is a function from a type string to an optional registration.

## Model

| member | source | states |
|---|---|---|
| DeviceSets.Inserted | tensorflow/compiler/jit/device_util.cc:26-35 | The storage after an insert holds exactly the old members plus the inserted id. Its length is the old length, or the word index of the id plus one when that is larger. |
| DeviceSets.InsertedWords | tensorflow/compiler/jit/device_util.cc:26-35 | An insert sets bit `id % 64` of word `id / 64`. It never shrinks the storage. Every other bit of every word, including the new zero words, keeps its old value. |
| DeviceSets.InsertedIdempotent | tensorflow/compiler/jit/device_util.cc:26-35 | Inserting an id a second time leaves the storage unchanged. |
| DeviceSets.DeviceSet.Insert | tensorflow/compiler/jit/device_util.cc:26-35 | The new storage is `Inserted` of the old storage, so the set gains exactly the inserted id. |
| DeviceSets.Unioned | tensorflow/compiler/jit/device_util.cc:37-45 | The storage after a union is as long as the longer operand, and its members are the union of both operands' members. |
| DeviceSets.UnionedCommutes | tensorflow/compiler/jit/device_util.cc:37-45 | Word-by-word OR gives the same storage whichever operand comes first. |
| DeviceSets.UnionedIdempotent | tensorflow/compiler/jit/device_util.cc:37-45 | The union of a set with itself, as in `s.UnionWith(s)`, changes nothing. |
| DeviceSets.UnionedAssociates | tensorflow/compiler/jit/device_util.cc:37-45 | Unions can be regrouped without changing the storage. |
| DeviceSets.DeviceSet.UnionWith | tensorflow/compiler/jit/device_util.cc:37-45 | The index loop over `other`'s words leaves storage equal to `Unioned` of the two old storages, so the members are the union. `other` is unchanged unless it is the receiver itself. |
| DeviceSets.EmptyIffZeroWords | tensorflow/compiler/jit/device_util.cc:47-49 | A set has no members exactly when every storage word is zero. |
| DeviceSets.DeviceSet.IsEmpty | tensorflow/compiler/jit/device_util.cc:47-49 | The all-of test over the words is true exactly when the set has no members. An empty storage vector is therefore empty. |
| DeviceSets.MembersBelow | tensorflow/compiler/jit/device_util.cc:82-85 | The enumeration of the ids below a bound contains exactly the members below that bound, strictly ascending. This is the order in which the ForEach callbacks of lines 82-85 and 130-152 see ids. |
| DeviceSets.Members | tensorflow/compiler/jit/device_util.cc:82-85 | The full enumeration contains exactly the set's members, in ascending order. |
| DeviceSets.MembersBelowPrefix | tensorflow/compiler/jit/device_util.cc:82-85 | A shorter enumeration is a prefix of a longer one. |
| DeviceSets.AscendingUnique | tensorflow/compiler/jit/device_util.cc:82-85 | Two ascending enumerations of the same ids are equal. |
| DeviceInfoCaches.DeviceInfoCache.GetIdFor | tensorflow/compiler/jit/device_util.cc:51-78 | The result and the cache's six tables afterwards are exactly what `Intern` gives for the old tables. This includes the partial append on a parse failure. |
| DeviceInfoCaches.InternKeepsValid | tensorflow/compiler/jit/device_util.cc:51-78 | `Valid` holds after every call, whatever the parser answers. It consists of three facts: `names_` and `id_to_device_type_` have the same length; the other three vectors have one common length, at most that of `names_`; every interned name maps to an id whose `names_` entry is that name. |
| DeviceInfoCaches.InternKeepsAligned | tensorflow/compiler/jit/device_util.cc:51-78 | `Aligned` is kept by every call that succeeds. `Aligned` means: every table has exactly one entry per id, every name is interned under its own id, and the flags agree with the type strings. |
| DeviceInfoCaches.InternOutcome | tensorflow/compiler/jit/device_util.cc:51-78 | Each path's result and every table afterwards. An empty name is an error and changes nothing. A known name returns its stored id and changes nothing. A new name succeeds exactly when it parses. It then receives the old `names_.size()`, which no earlier name has; each vector gets exactly the new entry appended (its name, its type, `type == "CPU"`, `type == "GPU"`, the registry's answer), and `name_to_id_` gains exactly the new name with that id. A name that fails to parse is an error: `names_` gains the name and `id_to_device_type_` an empty type, and nothing else changes. |
| DeviceInfoCaches.InternAppendOnly | tensorflow/compiler/jit/device_util.cc:51-78 | Every call only appends: each old vector is a prefix of the new one, and every name that had an id keeps it. |
| DeviceInfoCaches.InternAllKeepsIds | tensorflow/compiler/jit/device_util.cc:51-78 | Over any sequence of calls the tables stay valid and only grow, and a name that has an id gets that same id back, with nothing changed, whatever calls came in between. |
| DeviceInfoCaches.InternedInjective | tensorflow/compiler/jit/device_util.cc:54-68 | In valid tables, whatever history built them, two different names have different ids. |
| DeviceInfoCaches.InternClassifies | tensorflow/compiler/jit/device_util.cc:59-77 | A new, parsable name on aligned tables gets the next id. Its type entry is the parsed type. Its `is_cpu_` entry is true exactly for `"CPU"` and its `is_gpu_` entry exactly for `"GPU"`, so never both. Its compilation device is null exactly when the registry has none. |
| DeviceInfoCaches.InternAgain | tensorflow/compiler/jit/device_util.cc:54-57 | After a successful call, asking again for the same name returns the same id and changes nothing. |
| DeviceInfoCaches.InternDistinct | tensorflow/compiler/jit/device_util.cc:54-68 | Two different names interned one after the other get different ids. |
| DeviceInfoCaches.MalformedNameShiftsIds | tensorflow/compiler/jit/device_util.cc:59-66 | As written, a malformed name followed by a CPU name gives the CPU device id 1. At that point `is_cpu_` has a single entry, and that entry describes the second name. |
| DeviceInfoCaches.DeviceInfoCache.GetIdForParsedFirst | tensorflow/compiler/jit/device_util.cc:51-78 | The corrected call, which parses before appending. It leaves the result and tables of `InternParsedFirst`. |
| DeviceInfoCaches.InternParsedFirstKeepsAligned | tensorflow/compiler/jit/device_util.cc:51-78 | Parsing first, every call keeps aligned tables aligned. A failure changes nothing, and a success agrees with the code as written. |
| DeviceInfoCaches.ParsedFirstKeepsIdsDense | tensorflow/compiler/jit/device_util.cc:59-66 | Parsing first, the same two calls give the CPU device id 0, and the tables stay aligned. |
| DeviceInfoCaches.Join | tensorflow/compiler/jit/device_util.cc:87 | Joining no parts gives the empty string, and joining one part gives that part. |
| DeviceInfoCaches.JoinAppend | tensorflow/compiler/jit/device_util.cc:87 | Joining two non-empty runs of parts equals joining each run and putting one separator between them, so the separator stands between every pair of neighbouring parts, as `StrJoin` produces. |
| DeviceInfoCaches.NamesOf | tensorflow/compiler/jit/device_util.cc:82-85 | The names of a list of ids, one per id, in the same order. |
| DeviceInfoCaches.DeviceInfoCache.DebugString | tensorflow/compiler/jit/device_util.cc:80-88 | As written, the result is `ListedAsWritten`: the name of the lowest member in brackets, or `[]` for an empty set. |
| DeviceInfoCaches.ListedAsWrittenFirst | tensorflow/compiler/jit/device_util.cc:80-88 | When `id` is the lowest member, DebugString as written renders `[` followed by its name and `]`. |
| DeviceInfoCaches.ListedAsWrittenDropsNames | tensorflow/compiler/jit/device_util.cc:80-88 | DebugString as written and the full listing agree exactly when the set has at most one member. |
| DeviceInfoCaches.DeviceInfoCache.DebugStringAll | tensorflow/compiler/jit/device_util.cc:80-88 | The corrected rendering lists every member's name in ascending id order, joined by commas, in brackets. |
| PickDevices.BucketDevices | tensorflow/compiler/jit/device_util.cc:122-152 | The ForEach pass with its callback leaves the buckets and flags of `PassBelow` over the whole storage. Each member is visited in ascending order, and the pass ends at the second device of a kind. |
| PickDevices.PassSummarizes | tensorflow/compiler/jit/device_util.cc:130-152 | After the pass, a raised `multiple_*` flag means two members of that kind were seen. Until a flag is raised, each bucket is empty when no member of its kind was seen; otherwise it holds the only one. |
| PickDevices.VisitSummarizes | tensorflow/compiler/jit/device_util.cc:131-151 | One callback invocation on a new device keeps that summary true. |
| PickDevices.PassStays | tensorflow/compiler/jit/device_util.cc:133-146 | Once the callback has returned false, the remaining ids change nothing. |
| PickDevices.PassNonEmpty | tensorflow/compiler/jit/device_util.cc:119-152 | The pass over a non-empty set raises a flag or fills a bucket. The dereference at line 191 is therefore always of a filled bucket. |
| PickDevices.Decide | tensorflow/compiler/jit/device_util.cc:154-193 | A repeated-kind conflict is reported only when its flag is raised. A picked device comes from a filled bucket of a pass that did not stop. |
| PickDevices.VerdictMeaning | tensorflow/compiler/jit/device_util.cc:130-193 | A device is picked exactly when the set is feasible. Feasible means at most one device of each kind, no unknown device beside a GPU, and an unknown device beside a CPU only when mixing is allowed. The picked device is a member of the preferred kind (GPU, then unknown, then CPU) and the only one of that kind. An infeasible set is reported with a conflict that explains it. |
| PickDevices.ExplainedIsInfeasible | tensorflow/compiler/jit/device_util.cc:154-183 | Every conflict the policy may report is a genuine reason why no device can be picked. |
| PickDevices.PickDeviceForXlaImpl | tensorflow/compiler/jit/device_util.cc:100-198 | An empty set fails with the `TF_RET_CHECK` error, while `*out_can_pick_device` is still true. For a non-empty set, with `out_can_pick_device`: the status is OK and the flag is exactly whether the verdict picks a device. Without it: the status is OK with the picked device, or the conflict's error. |
| PickDevices.PickDeviceForXla | tensorflow/compiler/jit/device_util.cc:200-208 | An empty set is an error, not a conflict. A non-empty set succeeds exactly when it is feasible. The device returned is a member of the preferred kind. A failure on a non-empty set carries a conflict that explains it. |
| PickDevices.CanPickDeviceForXla | tensorflow/compiler/jit/device_util.cc:210-219 | An empty set is an error, not `false`. A non-empty set gives OK with exactly its feasibility. |
| Scenarios.CacheOf | tensorflow/compiler/jit/device_util.cc:51-78 | Two new, parsable names get ids 0 and 1: `names_` lists them in that order, `name_to_id_` maps the first to 0 and the second to 1, and their flags come from their types. |
| Scenarios.FirstTwo | tensorflow/compiler/jit/device_util.cc:26-35 | Inserting 0 and 1 into a new set gives exactly `{0, 1}`. |
| Scenarios.PickFromCpuAndGpu | tensorflow/compiler/jit/device_util.cc:186-187 | Of a CPU (id 0) and a GPU (id 1), the GPU is picked. |
| Scenarios.PickFromTwoCpus | tensorflow/compiler/jit/device_util.cc:154-157 | Two CPUs give a successful `false` from CanPickDeviceForXla and the multiple-CPU error from PickDeviceForXla. |
| Scenarios.PickFromCpuAndUnknown | tensorflow/compiler/jit/device_util.cc:176-189 | A CPU with an unknown device gives the unknown device when mixing is allowed, and the unknown-and-CPU error when it is not. |
| Scenarios.PickFromNothing | tensorflow/compiler/jit/device_util.cc:119 | An empty set is an error in both entry points. |
| Scenarios.RenderCpuAndGpu | tensorflow/compiler/jit/device_util.cc:80-88 | As written, DebugString of a CPU and a GPU renders only the CPU's name. |
| Scenarios.RenderAllCpuAndGpu | tensorflow/compiler/jit/device_util.cc:80-88 | The corrected rendering of the same set gives both names, the CPU's first. |

## Left out

- `DeviceNameToDeviceType` (lines 91-98) and its call into `DeviceNameUtils::ParseFullName` are part of another library. The parser is a parameter of `GetIdFor`; a name it rejects gives `MalformedAssignedDevice`.
- `XlaOpRegistry::GetCompilationDevice` (lines 71-74) is a lookup in a foreign registry. It is a parameter of `GetIdFor` that returns an optional registration, and `None` stands for the null pointer.
- `DeviceSet::ForEach` is defined in a header that is not part of this model. It is modelled as the ascending visit of ids `0 .. 64 * |storage| - 1`, stopping when the callback returns false. The word-by-word, bit-by-bit loop of the header is not modelled.
- Storage words are modelled as sets of bit positions, not as `uint64` values. Shifts and ORs are not modelled at the bit level; only their effect on membership is.
- Error messages are not modelled: `errors::Internal`, `StrCat`, and the `DebugString` and `GetNameFor` calls inside them. Each error is its cause (an `Error` constructor) without its text.
- `Status`, `StatusOr` and the `TF_RET_CHECK` and `TF_RETURN_IF_ERROR` macros are modelled as the `Result` and `Outcome` values.
- `IsCpu`, `IsGpu` and `GetNameFor` are defined in the header. They index their vectors directly, so an id without an entry is undefined behaviour. The pick methods therefore require every member to have flags (`Classifiable`), and `DebugString` requires every member to have a name (`Named`). The code reports no "invalid identifier" error for such an id, so none is modelled.
- PickDeviceForXlaImpl: the `DCHECK` of line 120 demands exactly one out-parameter. This is modelled by the flag `wantCanPick`, which says which of the two is passed, so the forbidden combinations cannot be expressed.
- The cache is not thread-safe, and nothing in this core is concurrent, so concurrency is not modelled.

## Findings

| source | as written | input that shows it | evidently intended | confidence | as-written member | corrected member |
|---|---|---|---|---|---|---|
| tensorflow/compiler/jit/device_util.cc:59-66 | A new name is appended to `names_` and `id_to_device_type_` before it is parsed. A parse failure returns with the name left there, but with no entry in `is_cpu_`, `is_gpu_`, `name_to_id_` or `id_to_compilation_device_`. | `GetIdFor("bad")` (fails), then `GetIdFor("/device:CPU:0")`. This returns id 1, while `is_cpu_` has one entry. `IsCpu(1)` reads past the end, and `is_cpu_[0]` describes the CPU device, not id 0. | Parse first and change nothing on failure, so ids stay dense and every table has one entry per id. | medium; not executed | DeviceInfoCaches.MalformedNameShiftsIds | DeviceInfoCaches.InternParsedFirstKeepsAligned |
| tensorflow/compiler/jit/device_util.cc:82-85 | The `DebugString` callback returns `false` after its first name, and that ends `ForEach`. Only the lowest member is listed. | A set of a CPU (id 0) and a GPU (id 1) renders as `[/device:CPU:0]`. | List every member, comma-separated, as the message "Multiple CPU devices ..." suggests. | medium; not executed | DeviceInfoCaches.ListedAsWrittenDropsNames | DeviceInfoCaches.DeviceInfoCache.DebugStringAll |
