# Atlas Matrix — a Dafny model of its constraint core and setup scripts

Atlas Matrix is a Maya plugin. It builds matrix-based parent constraints out of
Maya nodes, and it takes them apart again. A driver's world matrix, or a
pickMatrix or decompose/compose filtered copy of it, runs through a per-driver
multMatrix chain into the constrained object's `offsetParentMatrix`. With
several drivers, a blendMatrix takes over that plug. The plugin also ships
three setup scripts:
- an installer, which appends marker-guarded blocks to Maya's `userSetup` files, extends search paths and copies shelves;
- an uninstaller, which filters those blocks out again line by line and deletes the shelves;
- an import fixer, which rewrites package-relative imports and lists a tree's Python files.

The project models that core in Dafny, one module per source file.

**Shared modules:**
- `Wrappers`: `Option`, `Result` and the Python error that is raised.
- `Text`: the Python string operations the code uses, on `seq<char>`.
  - `in`, `startswith`, `endswith`, `strip`, `lower`, `split`, `join`;
  - `readlines`, as `Lines`.
- `FileStore`: a file system as a map from path to text.
- `SceneGraph`: the Maya scene the code drives, as a class.
  - Its state is node kinds, connections (at most one source per destination plug), opaque attribute values, user-defined attributes, DAG parents and the selection.
  - It also records which plugs and nodes the host protects.

**Modules that model the source:**
- `Attributes`, `Verification`, `AtlasVerification` and `Transform`: the helpers in core/utils.
- `NodeFactory`: the matrix-node factory that the builder calls.
- `MatrixNames`: core/matrix.py.
- `ParentConstraint`: the builder, `ParentCon` in core/parent_con.py.
- `RemoveConstraint`: the teardown, `RemoveCon` in core/remove_con.py.
- `Installer` (install.py), `Uninstaller` (uninstall.py) and `ImportFixer` (setup/fix_imports.py): the setup scripts.

**How the model is written:**
- Code that changes the scene or a file step by step is a method with loops and invariants. Each such method is proved equal to a specification function of the old state.
- What the source promises is proved as lemmas about those functions. This includes:
  - the chain wiring and the blend wiring;
  - the identity reset;
  - the de-duplicated, name-filtered node gathering;
  - exactly which attributes are removed;
  - idempotence of the installer's appends and of the import rewrite.
- Host queries whose answers the code only consumes are parameters or constant fields of the scene:
  - `nodeType`;
  - `listHistory`;
  - the order and repetitions in which `listConnections` lists the nodes connected into an object. The set it lists is required to be exactly the sources of the connections into the object (`RemoveConstraint.ListsSources`);
  - OpenMaya lookups;
  - which file operations raise.
- Where the docstrings and the code differ, the model follows the code. There are four such places:
  - the name builders of core/matrix.py format the driver list rather than one driver;
  - the `mult_matrix` docstring shows the prefix `multmatrix_` (core/matrix.py:60), but the code writes `multMatrix_` (core/matrix.py:68);
  - the `hold_matrix` docstring shows `hold_driven_obj_…` (core/matrix.py:80), but the code writes `holdMatrix_` (core/matrix.py:88);
  - the shadowed first `is_holdmatrix` has no effect.

## Model

| member | source | states |
|---|---|---|
| Attributes.GetWorldMatrix | core/utils/attributes.py:13-14 | The plug is on the object and reads `<obj>.worldMatrix[0]`. |
| Attributes.GetWorldInverseMatrix | core/utils/attributes.py:17-18 | The plug is on the object and reads `<obj>.worldInverseMatrix[0]`. |
| Attributes.GetOffsetParentMatrix | core/utils/attributes.py:21-22 | The plug is on the object and reads `<obj>.offsetParentMatrix`. |
| Attributes.GetInMatrix | core/utils/attributes.py:25-29 | pickMatrix, decomposeMatrix and inverseMatrix give `.inputMatrix`; every other kind gives `.inMatrix`. |
| Attributes.GetOutMatrix | core/utils/attributes.py:32-38 | pickMatrix, composeMatrix and inverseMatrix give `.outputMatrix`; multMatrix gives `.matrixSum`; every other kind gives `.outMatrix`. |
| Attributes.HelperPlugsAreNodeDotAttr | core/utils/attributes.py:13-38 | Every helper's plug is the object's name, a dot and a non-empty attribute text. |
| Attributes.HoldMatrixPlugs | core/utils/attributes.py:25-38 | A holdMatrix resolves to `inMatrix` and `outMatrix`, the plug that `hold_matrix` hands back. |
| Verification.KindPredicatesExclusive | core/utils/verification.py:13-64 | At most one of the nine exact-type predicates holds for any node type. |
| Verification.HoldMatrixIsNotMultMatrix | core/utils/verification.py:19-59 | The later `is_holdmatrix` replaces the earlier one: it accepts "holdMatrix" and not "multMatrix". addMatrix and wtAddMatrix are told apart. |
| Verification.KindPredicatesCaseSensitive | core/utils/verification.py:13-64 | The type comparison is case-sensitive: for every type string written all in lower case, no predicate holds except `is_joint`. |
| AtlasVerification.SplitFirstDot | atlas_matrix/core/utils/verification.py:179 | `split('.', 1)`: the node has no dot, and node + "." + rest rebuilds the text. |
| AtlasVerification.SplitFirstDotOfJoin | atlas_matrix/core/utils/verification.py:179 | A dot-free node joined to any rest by a dot splits back into exactly those two parts. |
| AtlasVerification.IsAttribute | atlas_matrix/core/utils/verification.py:167-186 | False for a non-string or a text without a dot; true only when the node before the first dot exists. |
| AtlasVerification.IsAttributeOfPath | atlas_matrix/core/utils/verification.py:179-186 | For `node.plug` with a dot-free node: true iff the node exists and the attribute query on the whole remainder succeeds. |
| AtlasVerification.IsAttributeApi | atlas_matrix/core/utils/verification.py:189-206 | False without a dot, and false rather than raising on a failed lookup; otherwise true exactly when the path resolves to a valid plug. |
| Transform.IdentityValues | core/utils/transform.py:36-54 | Afterwards translate and rotate read (0,0,0) and scale reads (1,1,1); a joint's jointOrient reads (0,0,0). Every other plug, a non-joint's orient included, keeps its value. |
| Transform.IdTransform | core/utils/transform.py:49-54 | The object's values become exactly the identity update of the old values. |
| SceneGraph.Scene.CreateNode | core/parent_con.py:237-237 | The new node did not exist before, has the requested kind, and carries the requested name when that name was free. |
| SceneGraph.Scene.Disconnect | core/parent_con.py:77 | Removes the connection from `src` into `dst` when there is one; nothing else changes. |
| SceneGraph.Scene.DeleteNode | core/remove_con.py:379-380 | An unprotected node goes, together with its connections, values, parenting and attributes. |
| SceneGraph.DeleteKeepsConsistent | core/remove_con.py:377-382 | Deleting an unprotected node keeps every connection, value and parenting between existing nodes. |
| NodeFactory.MultMatrix | core/parent_con.py:186-190 | Adds one multMatrix whose k-th `matrixIn` is fed by the k-th input, and returns its `matrixSum` plug. |
| NodeFactory.HoldMatrix | core/parent_con.py:95 | Adds one holdMatrix whose `inMatrix` is fed by the input node's output plug. |
| NodeFactory.PickMatrix | core/parent_con.py:134-141 | Adds one pickMatrix fed by the input, with its use switches set from the flags, and returns `outputMatrix`. |
| NodeFactory.PickFlagValues | core/parent_con.py:137-140 | The switches read back as given; an omitted shear switch keeps its value, as do plugs of other nodes. |
| NodeFactory.DecomposeMatrix | core/parent_con.py:147-150 | Adds one decomposeMatrix fed by the input plug. |
| NodeFactory.ComposeMatrix | core/parent_con.py:151-158 | Adds one composeMatrix; for each selected axis of each channel, the decomposed output feeds the matching input. |
| MatrixNames.NewMatrix | core/matrix.py:26-31 | Given arguments are kept. Otherwise the last selected object is the driven and the earlier ones are the drivers. This holds for each of the four given/missing combinations, including a given driver list with a driven taken from the selection. A missing driven or an empty driver list is the ValueError. |
| MatrixNames.ConstrainingString | core/matrix.py:34-48 | "parent" gives "pconstrainedby" and "aim" gives "aconstrainedby"; any other type gives None. |
| MatrixNames.TokenShown | core/matrix.py:66-68 | In a name the token is one of the two strings, or "None" exactly for an unknown type. |
| MatrixNames.AsWrittenMultMatrixExample | core/matrix.py:51-68 | As written, driven "b" and driver ["a"] give "multMatrix_b_pconstrainedby_['a']", not the per-driver name "multMatrix_b_pconstrainedby_a". |
| MatrixNames.AsWrittenNeverDocumented | core/matrix.py:51-128 | For any single driver, the written name is four characters longer than the per-driver name, so never equal to it. |
| MatrixNames.AsWrittenNamesDistinct | core/matrix.py:68-128 | As written, the multMatrix, holdMatrix, decomposeMatrix and composeMatrix names of one Matrix are pairwise distinct. |
| MatrixNames.AsWrittenNameContainsParts | core/matrix.py:68-128 | As written, every name contains the driven's name and the shown token. The list's repr is modelled for names without a quote or backslash. |
| MatrixNames.NamesDistinct | core/matrix.py:51-128 | The multMatrix, holdMatrix, decomposeMatrix and composeMatrix names of one driver are pairwise distinct. |
| MatrixNames.NameContainsParts | core/matrix.py:68-128 | Every name contains the driven's name, the shown token and the driver's name. |
| MatrixNames.ParentNamesCarryToken | core/matrix.py:68-128 | For a parent constraint, all four names contain "pconstrainedby" and the driven's name. |
| ParentConstraint.AxisListSpec | core/parent_con.py:53-61 | Each axis list holds exactly the axes whose flag is true, in X,Y,Z order; `zip` stops at the shorter list. |
| ParentConstraint.AxisListDefaults | core/parent_con.py:53-56 | An omitted flag list selects X, Y and Z; an empty one selects none. |
| ParentConstraint.NewConfig | core/parent_con.py:58-67 | The object list is the argument, or else the selection; the constrained object is its last element. |
| ParentConstraint.DriversThenConstrained | core/parent_con.py:58-67 | The object list is the drivers, in order, followed by the constrained object. |
| ParentConstraint.PickCaseIsOnlyChannel | core/parent_con.py:127-133 | The two counts are 1 and 3 exactly when one channel is `*_all` and the other three are off with empty axes. |
| ParentConstraint.DriverSourceCases | core/parent_con.py:122-161 | All four `*_all` gives worldMatrix and takes precedence. Otherwise the pick case, then any axis (decompose+compose), then worldMatrix; first match wins. |
| ParentConstraint.ParentCon.DriverNode | core/parent_con.py:101-161 | The world-matrix case creates no node; the pick case creates one pickMatrix fed by the world matrix; the custom case creates a decompose and a compose fed in turn. |
| ParentConstraint.ChainNameInjective | core/parent_con.py:176-189 | For one prefix and constrained object, different drivers give different node names. |
| ParentConstraint.BuilderNamesDistinct | core/parent_con.py:92-189 | The multmatrix, holdmatrix, pickmatrix, scratch and offset-group names never collide. |
| ParentConstraint.ChainInputsShape | core/parent_con.py:182-187 | With offset the inputs are [hold output, driver matrix, parent worldInverse]; without it, [driver matrix, parent worldInverse]. |
| ParentConstraint.ParentCon.HoldMatrix | core/parent_con.py:80-99 | Leaves only a holdMatrix with no input, deletes the scratch multMatrix, and returns `<name>.outMatrix`. |
| ParentConstraint.DisconnectInput | core/parent_con.py:72-77 | Every incoming connection of the plug is cut; nothing else changes. |
| ParentConstraint.MountKindsSpec | core/parent_con.py:176-190 | The chain adds its multMatrix, plus the hold and pick nodes its options ask for, and retypes no node. |
| ParentConstraint.MountLinksSpec | core/parent_con.py:174-200 | The chain's output is the offsetParentMatrix's one source; the multMatrix inputs are the chain inputs in order; other nodes' connections are unchanged. |
| ParentConstraint.MountValuesSpec | core/parent_con.py:176-201 | The constrained object is at identity. The pick switches follow `*_all`. With offset and no hold, `matrixIn[0]` holds the value read from the hold output. Other nodes keep their values. |
| ParentConstraint.ParentCon.MountSystem | core/parent_con.py:163-203 | Returns the `multmatrix_<constrained>_constrainedby_<driver>` name; kinds, links and values become exactly the mount specification of the old scene. |
| ParentConstraint.ParentCon.BakeHold | core/parent_con.py:192-198 | `matrixIn[0]` gets the value read from the hold output; no connection changes. |
| ParentConstraint.MountKeepsChain | core/parent_con.py:279-283 | Mounting one driver keeps the chain of any other driver wired. |
| ParentConstraint.MountKeepsChains | core/parent_con.py:279-283 | Mounting one driver keeps the chains of all earlier drivers wired. |
| ParentConstraint.MountAllKindsSpec | core/parent_con.py:277-283 | Mounting every driver adds exactly the chains' nodes, each a multMatrix, holdMatrix or pickMatrix, and retypes no node outside the chains. |
| ParentConstraint.MountAllAddsNoBlend | core/parent_con.py:277-283 | Mounting the drivers creates no blendMatrix: every blendMatrix afterwards was one before. |
| ParentConstraint.ConstrainedNotChained | core/parent_con.py:277-283 | The constrained object is none of the chains' nodes. |
| ParentConstraint.MountAllKeepsOld | core/parent_con.py:277-283 | Mounting keeps every node and the constrained object's type. |
| ParentConstraint.ParentCon.MountAll | core/parent_con.py:277-283 | Returns the multMatrix names in driver order. Every chain is wired, the last feeds the offsetParentMatrix, and the object is at identity. The node types become exactly those after mounting each driver in turn. |
| ParentConstraint.ParentCon.MountNext | core/parent_con.py:279-283 | One pass of the driver loop: the first `i + 1` chains are mounted, wired and named, and the object is at identity. |
| ParentConstraint.ParentCon.ResolveParent | core/parent_con.py:263-275 | An existing parent is used unchanged. Otherwise a new `<constrained>_off` transform becomes its parent and the selection is cleared. |
| ParentConstraint.BlendLinksSpec | core/parent_con.py:239-246 | Chain 0 feeds `inputMatrix`, chain i+1 feeds `target[i]`, the blend has \|chains\|-1 targets, and its output is the offsetParentMatrix's source. |
| ParentConstraint.WeightsSpec | core/parent_con.py:218-221 | Every target below the count gets the three configured weights; every other plug is untouched. |
| ParentConstraint.ParentCon.BlendMatrixWeights | core/parent_con.py:206-221 | A missing node or zero targets writes nothing; otherwise targets 0..count-1 get the weights. |
| ParentConstraint.ParentCon.CreateBlendMatrix | core/parent_con.py:226-249 | Creates the blend, wires it as BlendLinks says, weights its targets, and returns `blendmat_<constrained>`. |
| ParentConstraint.BlendInPlace | core/parent_con.py:239-248 | The blend keeps every chain wired and the object at identity, and is itself wired and weighted. |
| ParentConstraint.ResolvedMountKinds | core/parent_con.py:263-283 | After the parent is resolved and every driver mounted, the nodes are the old ones, the parent and the chains' nodes, and no new node is a blendMatrix. |
| ParentConstraint.ParentCon.BuildChains | core/parent_con.py:277-287 | With one driver no blend is created, `blendMatrixNode` is unchanged and the result is None. With several, exactly one new blendMatrix is added and its name is returned. |
| ParentConstraint.ParentCon.CreateConstraint | core/parent_con.py:251-287 | Fewer than two objects raises and changes nothing. Otherwise every chain is in place. Two objects return None with the only chain feeding the object. They leave `blendMatrixNode` unchanged, and the nodes are exactly the old ones, the parent and the chain's nodes, with no new blendMatrix. More objects return the blend name with the blend feeding the object, and the one blend node is the only other new node. |
| RemoveConstraint.ConstrainingName | core/remove_con.py:77-87 | "parent" gives "pconstrainedby" and "aim" gives "aconstrainedby"; anything else gives "". |
| RemoveConstraint.TokensAgree | core/remove_con.py:84-87 | The two token maps agree, except that an unknown type gives None in one and "" in the other. |
| RemoveConstraint.DetectedSpec | core/remove_con.py:97-154 | Detection gives only "parent", "aim" or None. The offsetParentMatrix sources come first, then the connected nodes, then a `W<digits>` attribute, which means "parent". |
| RemoveConstraint.ConnVerdictNeedsName | core/remove_con.py:130-136 | A connected node decides only when its name contains the driven's name. |
| RemoveConstraint.DetectConstraintType | core/remove_con.py:90-154 | The loops return the detection specification's answer. |
| RemoveConstraint.NewRemover | core/remove_con.py:59-74 | No driven raises. A declared type skips detection. Otherwise the detected type is used, and an undetected one raises. |
| RemoveConstraint.RemoverTypeKnown | core/remove_con.py:68-74 | A detected type is "parent" or "aim", and its token is non-empty. |
| RemoveConstraint.Dedup | core/remove_con.py:221 | `list(set(..))` holds each node once, and exactly the nodes of its input. |
| RemoveConstraint.OpmFoundSpec | core/remove_con.py:175-182 | An offsetParentMatrix source is kept iff it has the token, or has the driven's name and a matrix type. |
| RemoveConstraint.HistoryFoundSpec | core/remove_con.py:188-195 | A history node is kept iff it has the driven's name and the token, a matrix type or the holdMatrix type. |
| RemoveConstraint.UpstreamFoundSpec | core/remove_con.py:213-219 | An upstream node is kept iff it has the driven's name and a matrix type. |
| RemoveConstraint.ConnFoundSpec | core/remove_con.py:204-219 | A connected node is kept by the token or matrix rule, and a kept matrix node adds its upstream matrix nodes. |
| RemoveConstraint.GatherListSpec | core/remove_con.py:156-221 | The gathered list has no duplicates, and holds exactly the nodes the three rules select. |
| RemoveConstraint.GatheredCarryName | core/remove_con.py:188-219 | Every node gathered from history or from direct connections has the driven's name in its own name. |
| RemoveConstraint.GatherNodes | core/remove_con.py:156-221 | The three loops return the gathered list of the specification. |
| RemoveConstraint.RestoredSpec | core/remove_con.py:241-292 | With a copy present and the plug unlocked, the channel is reconnected to the copy's source, or else takes its stored value. Otherwise it is unchanged. Only that plug changes. |
| RemoveConstraint.RestoredTransformsSpec | core/remove_con.py:223-262 | With initialTransform, every restorable channel of the 12 carries its copy; only channel plugs change; a failure on one channel does not stop the others. |
| RemoveConstraint.RestoreTransformValues | core/remove_con.py:223-262 | The nested loops reach the restoration specification. |
| RemoveConstraint.OpmDisconnectedSpec | core/remove_con.py:324-345 | Afterwards the offsetParentMatrix has no input unless it is locked or absent; nothing else changes. |
| RemoveConstraint.DisconnectOffsetParentMatrix | core/remove_con.py:324-345 | The scene becomes the disconnection specification of the old scene. |
| RemoveConstraint.NodesDeletedSpec | core/remove_con.py:377-382 | Exactly the listed nodes that exist and are not protected go; a protected node stays and the loop goes on. |
| RemoveConstraint.DeleteConstraintNodes | core/remove_con.py:377-382 | The loop reaches the deletion specification. |
| RemoveConstraint.AttrsToRemoveSpec | core/remove_con.py:298-313 | An attribute is removed iff it is a user attribute that matches `W<digits>` or is initialTransform or initialMatrix. |
| RemoveConstraint.CollectAttrsToRemove | core/remove_con.py:298-313 | The loop collects the weights in order, then initialTransform and initialMatrix. |
| RemoveConstraint.AttrsDeletedSpec | core/remove_con.py:316-322 | Each listed attribute that exists and is unlocked goes; every other attribute stays. |
| RemoveConstraint.RemoveConstraintAttributes | core/remove_con.py:294-322 | The scene becomes the attribute-removal specification of the old scene. |
| RemoveConstraint.Remove | core/remove_con.py:347-385 | With no gathered node nothing changes. Otherwise it disconnects, restores the channels, restores the matrix, deletes the nodes and removes the attributes, in that order. |
| RemoveConstraint.RemovalDeletesGathered | core/remove_con.py:360-382 | A node is gone afterwards iff it was gathered and is not protected; no node appears. |
| RemoveConstraint.RemovalClearsAttributes | core/remove_con.py:369-385 | After a removal, no weight, initialTransform or initialMatrix attribute remains unless its plug is locked. |
| RemoveConstraint.RemovalFreesOffsetParentMatrix | core/remove_con.py:369-374 | Without an initialMatrix, the offsetParentMatrix has no input afterwards unless it is locked. |
| Installer.Norm | install.py:13-14 | `_norm` yields no backslash, keeps the length, and changes no other character. |
| Installer.NormIdempotent | install.py:13-14 | Normalising twice is normalising once. |
| Installer.PathSeparator | install.py:85-85 | The separator is ';' iff the platform is Windows. |
| Installer.PrefsDirEndsInVersion | install.py:23-30 | On every platform the preferences directory ends in `maya/<version>`. |
| Installer.AppendedOnceSpec | install.py:38-52 | Unchanged when the marker is present. Otherwise the old text, a newline if it did not end one, then "\n" + content; the old text is a prefix. |
| Installer.AppendedOnceIdempotent | install.py:44-46 | After the append the marker is present, so a second append changes nothing. |
| Installer.AppendOnce | install.py:38-52 | The file store becomes the append-once specification; a missing file is created only by appending. |
| Installer.BlocksHoldMarkers | install.py:68-93 | Each of the four blocks holds the marker it is appended under. |
| Installer.WriteUsersetupBlocks | install.py:55-104 | Both userSetup files get their two blocks, as the specification says. |
| Installer.WriteUsersetupTwice | install.py:99-104 | Running `write_usersetup_blocks` a second time changes no file. |
| Installer.PathListJoinedSpec | install.py:154-155 | Appending a directory makes it the last entry and keeps the others; no separator is added to an empty list. |
| Installer.InjectRuntimePaths | install.py:140-165 | sys.path and the two variables gain the directories only when they are absent. |
| Installer.InjectTwice | install.py:147-161 | Afterwards both directories are present, and a second injection changes nothing. |
| Installer.ShelfFiles | install.py:123 | Exactly the names starting with "shelf_", in listing order. |
| Installer.CopyShelfFiles | install.py:128-138 | Copies in order up to the first failure; succeeds iff no copy fails. |
| Installer.InstallShelf | install.py:109-138 | A missing source or no shelf file gives False with nothing copied; a failed copy gives False. |
| Uninstaller.LineStep | uninstall.py:92-111 | A marker line is dropped and starts skipping. While skipping, blank, '#' and tool lines are dropped; a setup command is dropped and ends skipping; any other line ends skipping and is kept. |
| Uninstaller.ClassifyLine | uninstall.py:93-109 | The line tests reach the one-line step specification. |
| Uninstaller.FilteredDropsMarker | uninstall.py:93-96 | No kept line holds the marker. |
| Uninstaller.FilteredSubsequence | uninstall.py:87-111 | The kept lines are input lines, in input order. |
| Uninstaller.FilteredKeepsPrefix | uninstall.py:87-111 | Every line before the first marker line is kept verbatim. |
| Uninstaller.NoMarkerKeepsAll | uninstall.py:87-111 | Without a marker line every line is kept. |
| Uninstaller.MarkerThenCommand | uninstall.py:104-107 | A marker line followed by a setup command removes both. |
| Uninstaller.MarkerThenOther | uninstall.py:108-111 | A marker followed by any other line ends skipping there and keeps that line. |
| Uninstaller.FilterLines | uninstall.py:88-111 | The loop returns the filter's lines, and whether some line held the marker. |
| Uninstaller.RemoveFromUsersetup | uninstall.py:77-125 | A missing file gives True. The file is rewritten only when a marker was found and both the read and the write succeed. True exactly when the file is missing, or it reads and either holds no marker line or can be written; an unreadable file, or an unwritable one with a marker line, gives False and stays unchanged. |
| Uninstaller.RemovedFromSpec | uninstall.py:113-116 | A rewritten file is made of old lines, in order, none holding the marker. |
| Uninstaller.PyBlockLeftBehind | uninstall.py:98-109 | As written, filtering the block install.py appends removes only its marker line. |
| Uninstaller.PyBlockRemoved | uninstall.py:98-109 | The block-aware filter takes the whole appended block out, leaving the old lines and the blank separator. |
| Uninstaller.AtlasShelfFileSpec | uninstall.py:56-62 | A file is removed iff it starts with "shelf_Atlas" and ends ".mel" or ".json"; every such file is a "shelf_" file. |
| Uninstaller.RemoveShelf | uninstall.py:33-74 | Always True; deletes exactly the matching files whose removal does not raise, and counts them. |
| Uninstaller.Uninstall | uninstall.py:128-167 | The files are as the four calls leave them; full success iff at most one of the three counted userSetup calls fails. |
| Uninstaller.UnreadableMelFails | uninstall.py:140-167 | An existing unreadable userSetup.mel fails both of its counted calls, so there is no full success. |
| Uninstaller.WritableMelSucceeds | uninstall.py:140-167 | A readable and writable userSetup.mel leaves at most the userSetup.py call failing, so the run is a full success. |
| Uninstaller.ReadOnlyMelFailsOnce | uninstall.py:113-121 | A read-only userSetup.mel with the script marker but not the icon marker fails once only: the icon call writes nothing and returns True. |
| ImportFixer.RewriteLineInserts | setup/fix_imports.py:37-46 | A line matching `^<head>(core\|ui\|setup)<tail>` gets the package name and a dot after the head; any other line is unchanged. |
| ImportFixer.FixByLines | setup/fix_imports.py:49-50 | The three `re.sub` passes act line by line: rewriting the content is rewriting each line. |
| ImportFixer.FixKeepsOtherLines | setup/fix_imports.py:37-46 | A line not starting with "from " or "import " is unchanged, so indented and mid-line imports stay. |
| ImportFixer.FixLineIdempotent | setup/fix_imports.py:37-50 | With rule heads apart and a foreign package name, a fixed line is fixed again to itself. |
| ImportFixer.FixIdempotent | setup/fix_imports.py:37-58 | Fixing the fixed content changes nothing, for any package name none of core/ui/setup is a prefix of. |
| ImportFixer.AtlasMatrixForeign | setup/fix_imports.py:16 | The default package name "atlas_matrix" starts with none of the three alternatives. |
| ImportFixer.FixImportsInFile | setup/fix_imports.py:16-58 | Returns True iff the rewrite changed the content, and writes the file only then. |
| ImportFixer.FixTwice | setup/fix_imports.py:53-58 | A second run on a fixed file returns False. |
| ImportFixer.ExcludedNames | setup/fix_imports.py:72-73 | With no set given, `__pycache__`, `.git`, `.idea`, `venv` and `env` are excluded. |
| ImportFixer.PyFoundMembers | setup/fix_imports.py:81-83 | A directory contributes exactly its ".py" files. |
| ImportFixer.CollectPyFiles | setup/fix_imports.py:81-83 | The loop collects exactly those files, in listing order. |
| ImportFixer.FindPythonFiles | setup/fix_imports.py:61-85 | The worklist walk returns the top-down `os.walk` order with excluded directories pruned. |
| ImportFixer.FindsExactly | setup/fix_imports.py:77-83 | A file is found iff it ends ".py" and is reachable through directories none of whose names is excluded. |

## Left out

- **Maya host.** `cmds` and OpenMaya are a scene model, not a client of the real host. Node types, `listHistory`, and the order in which `listConnections` lists connected nodes are given, not computed. RemoveConstraint.DetectConstraintType, NewRemover, CollectConnected, GatherNodes and Remove take that listing as a parameter and require its members to be exactly the sources of the connections into the driven. Matrix and weight values are opaque tokens, and evaluation is `Evaluated(plug)`.
- **Renaming on name collision.** It is modelled only as "a name starting with the requested one".
- **Builder names must be free.** The builder keeps using the names it requested, so ParentConstraint.ParentCon.CreateConstraint requires the names of the chains to be free. It also requires the drivers to be distinct, because the source does not handle a repeated driver.
- ParentConstraint.ParentCon.HoldMatrix: requires its hold name and `tmp_multmatrix` to be free, for the same reason.
- ParentConstraint.ParentCon.MountSystem: requires the offsetParentMatrix and the identity channels to be unlocked. The source does not catch a refusal there.
- **The `disconnectAttr` at core/parent_con.py:195.** It passes the destination first, so the model removes no connection there. ParentConstraint.ParentCon.BakeHold claims only the `setAttr` of line 198. A `setAttr` on a connected plug is modelled as a write.
- **`matchTransform`.** The offset group's placement (core/parent_con.py:268) is geometry and is not modelled. Nor are `print` output, `cmds.warning` and `undo_chunk`; `undo_chunk` is inherited from a class that is not part of this model.
- **The decompose/compose pair of `_driver_node`.** It is modelled as a method. `_mount_system` never calls `_driver_node`, and the builder does not use it.
- **`remove_constraint`.** The module-level wrapper (core/remove_con.py:393-406) only composes RemoveConstraint.NewRemover and RemoveConstraint.Remove.
- **Python exceptions** inside the restore, disconnect and delete loops. They are a locked plug or a protected node: the step changes nothing and the loop goes on.
- **Universal newlines.** uninstall.py:84 and setup/fix_imports.py:27 open files in text mode, so Python turns `"\r\n"` and a lone `"\r"` into `"\n"` on reading. FileStore.Files.Read returns the text verbatim, and Text.Lines and Text.Split break only at `'\n'`. So Uninstaller.RemoveFromUsersetup and ImportFixer.FixImportsInFile are modelled for LF-only files: for a CRLF or CR file the model sees other lines than the source, and it keeps the CRLF line ends the source would write back as LF. Installer.AppendOnce reads in text mode too (install.py:41): for a file ending in a lone `"\r"` the source sees a final newline and writes no extra separator, while Installer.AppendedOnce writes an extra `"\n"`. The marker test is the same either way, since the markers hold no line break.
- **File I/O and the environment in the setup scripts:**
  - file I/O is a map from path to text;
  - raising reads, writes, copies and removals are given sets of names (for the userSetup files, one set of unreadable and one of unwritable files);
  - `os.makedirs`, `abspath` and `expanduser` are not modelled (paths are POSIX strings and `_norm` only replaces backslashes);
  - `platform.system()` and `cmds.about` are parameters;
  - `os.environ` and the MEL environment are one map.
- **Installer and uninstaller UI calls.** `confirmDialog`, shelf UI deletion (uninstall.py:42-49), `loadNewShelf` (install.py:167-181) and printing are UI effects and are not modelled.
- ImportFixer.FixImportsInFile: requires the file to exist. The source raises on a missing file, which the caller never passes.
- **Backslashes in `package_name`.** `re.sub` would interpret them in the replacement template; they are not modelled.
- **`main()` of setup/fix_imports.py** (counting and printing over the found files) is left out.
- **Paths found by the import fixer.** They are `Found(dirs, name)` values rather than `Path` objects. `os.walk`'s listing order is the order inside the `Dir` value.
- SceneGraph.Scene.DeleteNode: `cmds.delete` in the host removes a node's DAG children with it. The model deletes only the node and leaves its children in the scene with no parent. When a node the remover gathers has DAG children, the model therefore keeps them where the host would delete them.
- **ASCII only in the string helpers.** Text.Lower lowers only A-Z, and Text.IsDigits accepts only 0-9. Text.Strip removes only the ASCII whitespace: space, tab, line feed, carriage return, 0x0B, 0x0C and 0x1C-0x1F. Python's `lower`, `strip` and `isdigit` are Unicode-aware and also handle characters such as 0x85, 0xA0 and non-ASCII digits.
- RemoveConstraint.AttrDeleted: deleting the compound `initialTransform` also removes its child attributes in the host. The model removes only the named attribute, because the child attributes are never listed or queried by the remover.
- **The UI, the plugin command, the old copies and the float clamps of the dialogs** are not part of this model. These are `ui/`, `_old/`, `_save/` and the `_float01` and `_fnum` clamps.

## Findings

| source | as written | input that shows it | evidently intended | confidence | as-written member | corrected member |
|---|---|---|---|---|---|---|
| core/matrix.py:68 | The f-string formats `self.driver`, which is the whole driver list, so the list's repr goes into the name. The repr is modelled for names without a quote or backslash, which Python would escape or quote differently. | driven "b", driver ["a"], type "parent" gives `multMatrix_b_pconstrainedby_['a']` | `multMatrix_b_pconstrainedby_a`, one name per driver: the docstrings (core/matrix.py:60, 80, 100, 120) show a single `driver_obj` in that place | high; not executed | MatrixNames.AsWrittenMultMatrixExample | MatrixNames.NamesDistinct |
| uninstall.py:98-109 | `import sys`, the second line of the block that install.py writes, is "any other line": it ends skipping and is kept. Only the marker line is removed, and the code that extends `sys.path` stays in userSetup.py. The icon block is affected the same way: `import maya.mel as mel`, its second line, ends skipping and is kept. | a userSetup.py that holds just the block from `write_usersetup_blocks` | the whole block is removed | high; not executed | Uninstaller.PyBlockLeftBehind | Uninstaller.PyBlockRemoved |
