# isula-build, modelled in Dafny

isula-build builds container images from Dockerfiles. A daemon runs the builds and streams their status; a front end
parses the Dockerfile, expands parameters and orders the stages; committing a stage writes its layers and history; and
a separator cuts a set of images into shareable base, lib and app tarballs and puts them together again. The project
models the parts of it where the state, the parsing or the interleaving is hardest to follow, and proves what they
promise for all inputs and all runs.

`dafny verify dfyconfig.toml` checks everything.

| file | what it models |
|---|---|
| `Separator.dfy`, `SeparatorProofs.dfy`, `SaveOutcome.dfy` | saving images as base, lib and app tarballs, and loading one back |
| `LayerSplit.dfy` | how an image's layers are cut into the three groups |
| `Rendezvous.dfy`, `Progress.dfy` | the Build and Status handlers of the daemon, interleaved over three maps and one channel per build, and which of them can get on |
| `LogicalLines.dfy`, `Joining.dfy` | from the text of a Dockerfile over physical lines, with the limit of the line scanner, to logical lines |
| `Stages.dfy`, `Parser.dfy` | from logical lines, and from the text, to pages, and which pages are marked for commit |
| `StageBuild.dfy` | how the builder resolves FROM and COPY --from, and which image each stage starts from |
| `Resolver.dfy` | expansion of `$name`, `${name}` and `${name:-word}` |
| `KeyValues.dfy` | the scanner for `key=value` lists |
| `Scoping.dfy`, `ScopeValues.dfy` | ARG and ENV along a stage, and which line decides the value of a key |
| `BuildArgs.dfy`, `HeadingValues.dfy` | ARGs in front of the first FROM, parameters in FROM, and which build arguments a build uses |
| `TriggerText.dfy`, `OnBuild.dfy` | ONBUILD triggers: declared, carried by an image, written out and read again, fired in the next build |
| `Commit.dfy` | the layer chain, history and consistency check of a commit |
| `Recycler.dfy` | the periodic recycler under arbitrary goroutine order |
| `Ports.dfy` | normalising EXPOSE ports |
| `Basics.dfy`, `Strings.dfy`, `Decimal.dfy` | options and results, and the few library functions on text and numbers that the code uses |

How it is built up: code that works step by step is a class or a method with loops, proved equal to a function of its
inputs or of the old state; what the source promises is then proved about that function. Handlers and goroutines are
steps of a state machine, one per critical section, send, receive or close, and the properties hold in every reachable
state of every run. Where a promise fails, a lemma names the inputs and another gives the exact condition.

What the proofs found:

- Separator: an app layer that an earlier image took as base or lib layer, or that is missing from the unpacked tree,
  is listed in the manifest entry but is not in the tarball, and nothing reports it (`LostLayers`). `CompleteIff` says
  exactly when a loaded image has all its layers. An image without base layers can be saved but never loaded; one
  without lib layers can be loaded only with a lib tarball given to the loader and the check skipped (`RoundTripGiven`
  says so for an empty one). A tarball renamed to `manifest` is overwritten by the manifest (`RenameDecides`).
- Rendezvous: the guarantees need that no two live builds share a build ID. The code does not enforce that, and
  `OverlapCanPanic` schedules a panic whatever phase the first of two such builds is in. Even without such a clash a
  build can wait for ever: a client that asks for its status and goes away deletes the entry of the channel the build is
  about to send on (`StrandedBuild`). `CanEndIff` says exactly which calls can still end.
- Parser: the line scanner stops at a line of more than 65,535 bytes and its error is never read, so that line and all
  behind it are dropped and the rest builds (`LongLineIgnored`). `CompleteIff` says exactly when nothing is lost.
- Stages: the parser and the builder resolve stage names on their own. The parser enters a page's own name before it
  looks up the base and knows unnamed pages by their number; the builder does neither. `StartsRightIff` is the exact
  condition under which every stage starts from its base's final image; `ShadowLosesWork` is a file where it fails.
- Resolver: a one-letter `${a}` in front of a modifier is swallowed without an error (`OneLetterSwallowed`).
- Recycler: a removal is by name and may be late, so that it can remove a node registered since under the same name
  (`StaleRemoval`, `TwoRemovals`); `CanLoseIff` gives the exact condition.
- Heading ARGs: the code promises that a build argument beats the default of a heading ARG. A second ARG line for the
  same key undoes that (`RepeatedHeading`); `BuildArgWinsIff` is the exact condition.
- Build arguments: a key spelled `n:-w` is deleted from the unused ones by `FROM ${n:-w}` (`MissingInput`).
- ONBUILD: accepted triggers can fail the child build, run into each other or be lost when they are read again;
  `ReadBackIff` and `FiresInOrderIff` say exactly when they fire as declared. Whatever becomes of them, they are not
  handed on: an image carries the triggers of its own Dockerfile only (`FireOnce`). A trigger with a newline in it, which
  only an image built elsewhere can have, can get through one build (`NewlineCarries`) but not two (`FireOnceFromAny`).

## Model

| member | source | states |
|---|---|---|
| `Separator.SaveSession.constructor` | daemon/separator/save.go:218-228 | a save starts with the unpacked tree, empty working directories and empty maps of seen layers |
| `Separator.SaveSession.ProcessBaseImg` | daemon/separator/image_info.go:61-99 | the method, changing the tree and the shared maps in place, computes `ProcessBase` of the old state, and fails exactly when it does |
| `Separator.SaveSession.ProcessLibImg` | daemon/separator/image_info.go:101-141 | the same for lib layers and `ProcessLib`, including images without lib layers |
| `Separator.SaveSession.ProcessAppImg` | daemon/separator/image_info.go:143-186 | the same for app layers, the image's files and `ProcessApp` |
| `Separator.SaveSession.ProcessImageLayers` | daemon/separator/save.go:218-263 | the loop over all images and the write of the manifest compute `Save` |
| `Separator.MoveAll` | daemon/separator/load.go:227-257 | moving all entries of one directory into another, in any order, is the union, and fails exactly if they share a name that is a layer directory in one of them |
| `Separator.LoadSeparatedImage` | daemon/separator/load.go:86-102 | the loader's steps, from the manifest entry over checksums and unpacking to the merge, compute `Load` |
| `Separator.RenameApplies` | daemon/separator/save.go:388-401 | the first entry of the rename file for a name renames it, wherever in the file it is; other names stay |
| `SeparatorProofs.SharePhase` | daemon/separator/image_info.go:61-141 | saving a shared layer list keeps the invariant that each seen list has one tarball holding exactly that list, with its recorded hash |
| `SeparatorProofs.BasePhase` | daemon/separator/image_info.go:61-99 | the base phase of an image establishes its base entry and keeps the invariant |
| `SeparatorProofs.LibPhase` | daemon/separator/image_info.go:101-141 | the lib phase of an image establishes its lib entry and keeps the invariant |
| `SeparatorProofs.AppPhase` | daemon/separator/image_info.go:143-186 | the app tarball holds the app layers still in the tree, the configuration, the manifest and the repositories file |
| `SeparatorProofs.ImageStep` | daemon/separator/save.go:218-263 | one whole image keeps the invariant over all images and leaves its three tarballs as they should be |
| `SeparatorProofs.AllSaved` | daemon/separator/save.go:218-263 | so does any number of images |
| `SeparatorProofs.SavedWell` | daemon/separator/save.go:218-263 | after all images, the tarballs that every manifest entry names match the recorded hashes and contents, and the entry names layers, base image, base layer and lib image; the manifest, written last, is the only thing that can replace one |
| `SeparatorProofs.TarballsDisjoint` | daemon/separator/image_info.go:61-186 | the three tarballs of an image have no entry in common |
| `SeparatorProofs.LoadGood` | daemon/separator/load.go:86-257 | loading from good tarballs, with the one gone that the manifest replaced, succeeds exactly when the image has base layers, its lib tarball is accepted and none that is taken from the manifest's entry is that one, and restores the image |
| `SeparatorProofs.RoundTripGiven` | daemon/separator/load.go:86-257 | save, then load, with or without given paths to copies of the base and lib tarballs: Ok if and only if the image has base layers, it has lib layers or the loader accepts an empty lib tarball it is given, and no tarball taken from the entry, own or shared, is renamed to the manifest's name; the result is exactly its saved layers, manifest, repositories file and configuration |
| `SeparatorProofs.RoundTrip` | daemon/separator/load.go:86-257 | in particular from the destination alone: Ok if and only if the image has base and lib layers and none of its tarballs is renamed to the manifest's name |
| `SeparatorProofs.ClobberedIff` | daemon/separator/save.go:255-259 | a tarball taken from the entry is at the manifest's path if and only if the first image with that base list, with that lib list, or the image itself has a rename to it |
| `SeparatorProofs.CompleteIff` | daemon/separator/image_info.go:143-186 | all layers of a loaded image are back, unchanged, if and only if each app layer was in the tree and not taken by an earlier image |
| `SeparatorProofs.NamesClashIff` | daemon/separator/image_info.go:51-59 | without renames a tarball name is a plain file name, and two names are equal if and only if kind and last name and tag elements are |
| `SeparatorProofs.DistinctStems` | daemon/separator/image_info.go:51-59 | so, without renames, images with different stems never write to each other's tarballs or to the manifest, and all their tarballs can be created |
| `SaveOutcome.ShareOkIff` | daemon/separator/image_info.go:61-141 | the loop over base or lib layers succeeds if and only if the layers are in the tree and not taken in another role, and a new list has a name under which a file can be created |
| `SaveOutcome.AppLayersIff` | daemon/separator/image_info.go:149-160 | the loop over app layers succeeds if and only if none is listed twice or was saved as an app layer before |
| `SaveOutcome.ImageOkIff` | daemon/separator/image_info.go:61-186 | an image can be saved if and only if it is `Savable` after the images before it |
| `SaveOutcome.SaveOkIff` | daemon/separator/save.go:218-263 | a whole save succeeds if and only if every image is savable in its turn |
| `SaveOutcome.AllComeBack` | daemon/separator/load.go:86-257 | if every image is whole, the save succeeds, and an image loads, with each of its layers as it was unpacked, if and only if the manifest did not replace one of its tarballs |
| `SaveOutcome.OneWhole` | daemon/separator/save.go:218-263 | an image with one layer of each kind is whole |
| `SaveOutcome.OneComesBack` | daemon/separator/load.go:86-257 | so, without renames, it is saved and loads |
| `SaveOutcome.RenameDecides` | daemon/separator/save.go:388-401 | with its base tarball renamed to a short name, the save fails exactly for names that are no file names, and the load exactly for the manifest's name |
| `SaveOutcome.LostLayers` | daemon/separator/image_info.go:149-160 | two images are saved and the second loads, without two of its app layers that the first had taken as base and lib |
| `LayerSplit.ConstructLayerMap` | daemon/separator/save.go:157-182 | succeeds exactly when every link target exists and no two links share one; the map is then injective and leads each target to its directory |
| `LayerSplit.Reverse` | daemon/separator/utils.go:55-62 | the reversed map has exactly the values as keys, each leading back to a key |
| `LayerSplit.GetLayerHashFromTar` | daemon/separator/utils.go:55-70 | for an injective map the keys are exactly the hashes of the image's own layers |
| `LayerSplit.AdjustImage` | daemon/separator/save.go:199-205 | one manifest entry: layer paths rewritten in order, hashes of its own layers, each leading to the path of its layer |
| `LayerSplit.AdjustLayers` | daemon/separator/save.go:184-214 | the whole loop: succeeds exactly when the layer map can be made; in every image each file is replaced by the path of the directory whose link points to it |
| `LayerSplit.HashOfIff` | daemon/separator/utils.go:62-66 | the hash of a file name is what it has in front of `.tar` |
| `LayerSplit.IDsOfPaths` | daemon/separator/utils.go:72-78 | the IDs of any list of rewritten paths are the directories they name, in order |
| `LayerSplit.LayersInOrder` | daemon/separator/save.go:293-355 | whenever construction succeeds, base ++ lib ++ app is the image's layer sequence, base has at most one layer, app is not empty and ends in the top layer |
| `LayerSplit.LayersFollowLinks` | daemon/separator/save.go:184-325 | from the unpacked tree: base ++ lib ++ app are the directories whose links point to the files of the manifest, in its order, and the top layer is that of the last file |
| `LayerSplit.SplitOkIff` | daemon/separator/save.go:327-355 | an image can be taken apart if and only if it has a name, the base image has at most one layer, and base and lib image have fewer layers than it, all of them among its own |
| `LayerSplit.NameAndTag` | daemon/separator/save.go:293-325 | name and tag put together again give the first repo tag |
| `LayerSplit.ConstructImageInfos` | daemon/separator/save.go:357-373 | succeeds exactly when every image does; keyed by name, the first image of a name wins |
| `LayerSplit.SharedPrefixIsAdmissible` | daemon/separator/save.go:293-355 | images with the same leading layers get base and lib lists that the save can share |
| `LayerSplit.SharedFilesAreAdmissible` | daemon/separator/save.go:184-355 | the same for images of one tree whose manifests start with the same files |
| `Rendezvous.Shared.constructor` | daemon/daemon.go:67-84 | the daemon starts with empty maps |
| `Rendezvous.Shared.NewBuilder` | daemon/daemon.go:133-168 | registration in both maps, refused if and only if the entity is taken |
| `Rendezvous.Shared.DeleteBuilder` | daemon/daemon.go:180-187 | removal from both maps |
| `Rendezvous.Shared.SyncBuildStatus` | daemon/status.go:62-71 | the channel of a build ID, made on first use |
| `Rendezvous.Shared.CloseStatusChan` | daemon/status.go:73-79 | the channel of a build ID is closed |
| `Rendezvous.Shared.RemoveStatus` | daemon/backend.go:46-50 | the status entry is deleted |
| `Rendezvous.Shared.ReaperGuard` | daemon/daemon.go:215-230 | the reaper acts only on an empty builders map |
| `Rendezvous.RunsAreSafe` | daemon/build.go:26-56 | the invariant over tables, channel owners, closed channels and status entries holds in every state of every interleaving, and no step of it panics |
| `Rendezvous.NoRunPanics` | daemon/status.go:34-79 | in no run is a start channel closed twice or sent on after its close, or a nil builder dismissed |
| `Rendezvous.NoLeftovers` | daemon/build.go:26-56 | whenever no handler is live, the builders, entities and status maps are all empty |
| `Rendezvous.StatusEntriesHaveWaiters` | daemon/status.go:29-60 | a status entry without a build of its ID has a Status call waiting on exactly that channel |
| `Rendezvous.EntityExclusion` | daemon/daemon.go:157-186 | in every reachable state the two maps are inverse to each other and no two live builds share an entity |
| `Rendezvous.ReaperWaits` | daemon/daemon.go:215-230 | the reaper's guard holds if and only if no build is between registration and deletion |
| `Rendezvous.RegisteredEarlier` | daemon/daemon.go:157-168 | an ID counted as registered was in the builders map at an earlier point of the run |
| `Rendezvous.StatusWaitsForBuild` | daemon/status.go:34-60 | a Status call gets past its wait only after a build of that ID registered its builder |
| `Rendezvous.OverlapCanPanic` | daemon/build.go:33-48 | a second build that arrives under the ID of a live one, with an entity of its own, can be scheduled into a panic, in every phase of the first that can get on |
| `Rendezvous.OverlapSends` | daemon/build.go:33-48 | while a closed channel is in the status map, a second build under its ID panics when it sends |
| `Rendezvous.TwoRunningPanic` | daemon/daemon.go:180-187 | of two running builds with one ID, the one that ends last dismisses a builder that is gone |
| `Rendezvous.PanicIff` | daemon/status.go:73-79 | a step panics if and only if it sends on a closed channel, closes one again or dismisses a builder that is not in the map |
| `Progress.ArrivedAs` | daemon/build.go:26-31 | every live call carries the ID, and a build the entity, that it arrived with |
| `Progress.RegisterIff` | daemon/daemon.go:133-168 | in every state of every run a build registers if and only if no live build holds its entity, and ends otherwise |
| `Progress.LookupIff` | daemon/status.go:42-48 | in every state of every run a Status call past its wait streams if and only if a build of its ID is between registration and deletion, and ends otherwise |
| `Progress.MetStatusStreams` | daemon/status.go:34-60 | whatever happens in between, a Status that met a build can stream as long as that build has not been dismissed |
| `Progress.LateStatusStreams` | daemon/status.go:34-60 | a Status that comes while the closed channel of a live build is in the map gets through to stream without waiting |
| `Progress.CanEndIff` | daemon/build.go:26-56 | in every state of every run a call can still end if and only if it is not a build that sends on a channel which is no longer in the status map and on which nobody waits |
| `Progress.OnlyCancelStrands` | daemon/status.go:34-40 | only a Status of the same ID whose client went away gets a build into that state |
| `Progress.StrandedBuild` | daemon/status.go:34-40 | and from every state in which a build waits for its first Status, one such client is enough |
| `LogicalLines.PreProcess` | builder/dockerfile/parser/parser.go:111-125 | the scanner's loop over the bytes of the text computes the rows of the lines that the scanner delivers |
| `LogicalLines.RowsOf` | builder/dockerfile/parser/parser.go:111-125 | of the lines delivered, the rows are exactly those that are neither blank nor comment, in order, under their own numbers |
| `LogicalLines.AllRowsIff` | builder/dockerfile/parser/parser.go:111-125 | the rows are a prefix of those of the whole text, and all of them if and only if no effective line is the first over-long line or behind it |
| `LogicalLines.LongLineLost` | builder/dockerfile/parser/parser.go:113-114 | an over-long line and all that follows are not delivered, whatever is in front |
| `LogicalLines.JoinBlock` | builder/dockerfile/parser/parser.go:142-162 | the inner loop joins exactly the rows of one block |
| `LogicalLines.Format` | builder/dockerfile/parser/parser.go:128-173 | the nested loops compute `Lines` |
| `LogicalLines.RowsConserved` | builder/dockerfile/parser/parser.go:128-173 | on success the rows are split into contiguous, ordered, non-empty blocks, one per logical line, with the right first and last line numbers; `Joining.JoinedBack` says what their texts are |
| `LogicalLines.SplitUnique` | builder/dockerfile/parser/parser.go:142-162 | there is only one such split |
| `LogicalLines.LineTexts` | builder/dockerfile/parser/parser.go:161-169 | the text of every line read from a Dockerfile is trimmed, not empty and without a newline |
| `LogicalLines.CommentIff` | builder/dockerfile/parser/parser.go:111-125 | a comment is any text behind a number sign with only white space in front |
| `LogicalLines.EffectiveIff` | builder/dockerfile/parser/parser.go:111-125 | the lines that count are those that are neither blank nor such a comment |
| `Joining.JoinedBack` | builder/dockerfile/parser/parser.go:128-173 | lines spread over any number of rows, indented and with white space behind the escape character, are read back one by one, with command, argument and line numbers |
| `Joining.NothingSaid` | builder/dockerfile/parser/parser.go:161-166 | pieces that make no space, or nothing behind the first, are an error |
| `Joining.LinesBack` | builder/dockerfile/parser/parser.go:111-125 | the scanner delivers the lines of a text, with either kind of line end |
| `Joining.TextBack` | builder/dockerfile/parser/parser.go:111-173 | so a text whose effective lines are the rows of a file is read as that file |
| `Stages.TruncHeadingArgs` | builder/dockerfile/parser/parser.go:268-291 | the heading is the ARG lines in front of the first FROM; accepted if and only if there is no other line in front of it |
| `Stages.TakeTurn` | builder/dockerfile/parser/parser.go:201-254 | the loop body, one line at a time, computes `Turn` |
| `Stages.ConstructPages` | builder/dockerfile/parser/parser.go:189-264 | the loop computes `Pages`, and the current page exists whenever it is used |
| `Stages.PagesPartition` | builder/dockerfile/parser/parser.go:189-264 | laid end to end the pages are the lines; each has its single FROM first; a page is marked if and only if it has further lines and is last or named by a later FROM |
| `Stages.ParsePages` | builder/dockerfile/parser/parser.go:78-100 | accepted if and only if the heading is in order and the pages can be made; the file is then its heading ARG lines followed by its pages, nothing lost or moved |
| `Stages.PagesOkIff` | builder/dockerfile/parser/parser.go:189-264 | pages can be made if and only if there is a FROM line and every FROM line gives a valid page name |
| `Stages.AliasesDecide` | builder/dockerfile/parser/parser.go:175-187 | the number of an unnamed page is always valid, so only names behind AS can be refused |
| `Stages.OnbuildOnePage` | builder/dockerfile/parser/parser.go:205-220 | triggers make one page holding all of them |
| `Stages.OnbuildOkIff` | builder/dockerfile/parser/parser.go:205-220 | triggers make a page if and only if there are some and none is a FROM line |
| `Parser.HandleAll` | builder/dockerfile/parser/parser.go:72-81 | every logical line goes through its instruction parser; fails if and only if one of them does |
| `Parser.HandledFromText` | builder/dockerfile/parser/parser.go:57-81 | instructions come from the blocks of rows that the scanner found in the text, one from each, with command and line numbers |
| `Parser.Parse` | builder/dockerfile/parser/parser.go:49-100 | from text to pages: accepted if and only if every logical line has two fields and a parser that accepts it, the heading is in order and the pages can be made; the instructions are then the heading ARGs followed by the pages, in order |
| `Parser.CompleteIff` | builder/dockerfile/parser/parser.go:111-125 | nothing of the text is lost on the way if and only if no effective line is over-long or behind an over-long line |
| `Parser.LongLineIgnored` | builder/dockerfile/parser/parser.go:49-125 | a file with an over-long line is accepted, and parsed, as the part in front of that line |
| `StageBuild.NewStageBuilders` | builder/dockerfile/builder.go:285-319 | every stage gets its resolved image and the last earlier stage with that alias, if there is one; fails if and only if some image name cannot be resolved |
| `StageBuild.Build` | builder/dockerfile/builder.go:466-480 | stages are built in order; the image of a base and the mountpoint for COPY --from are those of finished stages, and hold what these recorded; fails if and only if some stage is built on one that records no image |
| `StageBuild.StagesEarlier` | builder/dockerfile/builder.go:407-424 | FROM resolves to strictly earlier stages only |
| `StageBuild.StartsRightIff` | builder/dockerfile/stage_builder.go:196-224 | every stage starts from its base's final image if and only if the parser sees a later page built on every base that has lines of its own |
| `StageBuild.AgreeIff` | builder/dockerfile/builder.go:407-424 | for literal FROM lines, the parser finds the stage the builder finds if and only if no page in between bears the name |
| `StageBuild.AgreedMarks` | builder/dockerfile/parser/parser.go:236-245 | so without such pages every base with lines of its own is seen by the parser |
| `StageBuild.BuildsOnFinalImages` | builder/dockerfile/builder.go:466-480 | from the file to the images: with literal FROM lines and distinct page names every stage starts from its base's final image, and the build's image is the last stage's final image |
| `StageBuild.ShadowLosesWork` | builder/dockerfile/parser/parser.go:236-245 | after `FROM x AS x` the first stage is not committed and the second starts from the wrong image |
| `StageBuild.CopySource` | builder/dockerfile/add_copy.go:124-139 | COPY --from resolves to strictly earlier stages only |
| `StageBuild.ReadCopies` | builder/dockerfile/add_copy.go:124-139 | in stage j every mountpoint read is that of a stage finished before |
| `StageBuild.CopyReadsFinal` | builder/dockerfile/add_copy.go:124-139 | and it holds the stage's final image if the stage started right, committed or not |
| `StageBuild.CopyByName` | builder/dockerfile/add_copy.go:124-139 | with distinct page names COPY --from finds every earlier stage under its name, aliased or numbered |
| `StageBuild.CopyByNumber` | builder/dockerfile/add_copy.go:132-139 | and under its number, unless an earlier stage bears that as its name |
| `StageBuild.CopyFromImage` | builder/dockerfile/add_copy.go:124-139 | any other name, a later alias or a number out of range, is taken for an image |
| `Resolver.Scanner.NoDollar` | builder/dockerfile/parser/util.go:114-139 | the index moves on and the final result is not affected |
| `Resolver.Scanner.NoBrace` | builder/dockerfile/parser/util.go:141-165 | the same for `$name`, or the whole word is an error |
| `Resolver.Scanner.InBrace` | builder/dockerfile/parser/util.go:167-210 | the same for `${...}` |
| `Resolver.Scanner.Run` | builder/dockerfile/parser/util.go:60-102 | the scan ends on every input and computes `Resolve` |
| `Resolver.ResolveParam` | builder/dockerfile/parser/util.go:60-102 | so does the call as a whole |
| `Resolver.ResolveAsking` | builder/dockerfile/parser/util.go:60-102 | the same, and the arguments handed to the resolving function are `Asked`, in order |
| `Resolver.ResolveIsEval` | builder/dockerfile/parser/util.go:60-210 | resolving the print of any well-formed token list, modifiers and quotes included, is evaluating it |
| `Resolver.AskedAll` | builder/dockerfile/parser/util.go:60-210 | and it asks for the parameters of the word, all of them and in order |
| `Resolver.AcceptedWords` | builder/dockerfile/parser/util.go:60-210 | every accepted word without modifiers is the print of a well-formed token list |
| `Resolver.ResolvesTo` | builder/dockerfile/parser/util.go:60-210 | a word without modifiers expands to a text if and only if it is the print of a token list with that value |
| `Resolver.OneLetterSwallowed` | builder/dockerfile/parser/util.go:177-186 | a one-letter parameter right before a modifier is swallowed; the word means what it should if and only if the parameter is empty |
| `Resolver.TextSwallowed` | builder/dockerfile/parser/util.go:177-186 | text between the two is swallowed as well, if nothing in it matches the special pattern |
| `Resolver.WordBetweenFails` | builder/dockerfile/parser/util.go:177-186 | a word between the two that does match makes the whole an error |
| `KeyValues.ScanKey` | builder/dockerfile/parser/command.go:553-569 | the key loop stops at the first equals sign and returns the text in front of it |
| `KeyValues.ScanValue` | builder/dockerfile/parser/command.go:571-589 | the value loop reads one quoted or unquoted value |
| `KeyValues.ParseKeyEqualValuePairs` | builder/dockerfile/parser/command.go:547-591 | the nested loops compute `Pairs` |
| `KeyValues.RoundTrip` | builder/dockerfile/parser/command.go:547-591 | every list of legal keys and values, written with any legal white space, is read back exactly |
| `Scoping.AnalyzeArg` | builder/dockerfile/stage_builder.go:83-123 | the maps changed in place end up as `AfterArg` says, whose values `ScopeValues.ValuesDecided` gives; the returned map is a copy |
| `Scoping.AnalyzeEnv` | builder/dockerfile/stage_builder.go:125-159 | the same for ENV, cell by cell, and `AfterEnv` |
| `Scoping.AnalyzeLine` | builder/dockerfile/stage_builder.go:170-191 | what a command holds: values before its line, except ARG's arguments and ENV's environment, which are after it |
| `Scoping.AnalyzeStage` | builder/dockerfile/stage_builder.go:161-194 | at the end of the stage every command still holds what its line saw, in tables of its own, although the stage's tables were changed by every later line |
| `Scoping.EnvTakesOver` | builder/dockerfile/stage_builder.go:138-157 | an ENV line takes exactly its keys out of the arguments and into the environment |
| `Scoping.OnlyDeclared` | builder/dockerfile/stage_builder.go:83-123 | arguments come from ARG lines only, and exactly the declared build arguments count as used |
| `Scoping.EnvHidesArg` | builder/dockerfile/stage_builder.go:150-155 | across a whole stage, an ENV key stays out of the arguments until an ARG line declares it again |
| `Scoping.HeadingInvisible` | builder/dockerfile/stage_builder.go:83-123 | the value of a heading ARG has no influence on a stage whose ARG lines do not declare it |
| `ScopeValues.ValuesDecided` | builder/dockerfile/stage_builder.go:83-159 | at every line of a stage each key has the value its lines decide: the last ENV cell in the environment; in the arguments, behind the last ENV of the key, the build argument, else the default given last or the value at the start, else the heading value; expansions follow the same priorities |
| `ScopeValues.CommandSees` | builder/dockerfile/stage_builder.go:161-194 | a command sees the values decided in front of its line, ARG its own argument and ENV its own settings as well |
| `BuildArgs.UsedHeadingArgs` | builder/dockerfile/builder.go:325-376 | both loops compute the heading values, the reserved and the unused arguments |
| `BuildArgs.MoveKeys` | builder/dockerfile/builder.go:365-370 | in whatever order the map is visited, exactly the reserved keys move |
| `BuildArgs.HeadingConsumes` | builder/dockerfile/builder.go:338-364 | heading ARGs consume exactly the build arguments they name |
| `BuildArgs.BuildArgsParted` | builder/dockerfile/builder.go:325-376 | the build arguments are the disjoint union of consumed, reserved and unused, with their values |
| `HeadingValues.HeadingDecided` | builder/dockerfile/builder.go:338-364 | a heading ARG has the default given last; without one, the build argument of its name; expansions see the values of the lines in front |
| `HeadingValues.BuildArgWinsIff` | builder/dockerfile/builder.go:320-364 | the build argument decides if and only if no later line gives the key another default |
| `HeadingValues.RepeatedHeading` | builder/dockerfile/builder.go:338-364 | with `ARG n=a`, `ARG n=b` and `--build-arg n=v` the value is b |
| `BuildArgs.SearchArg` | builder/dockerfile/builder.go:378-405 | the value of a parameter in FROM, and the deletion that goes with it |
| `HeadingValues.SearchMeans` | builder/dockerfile/builder.go:378-405 | `$n` is the heading value, `${n:-w}` is w without one, `${n:+w}` is w with one |
| `HeadingValues.FromParameter` | image/image.go:442-461 | `FROM $n` and `FROM ${n}` are accepted if and only if the heading value is there, not empty and an image name, which is the result |
| `HeadingValues.FromDefault` | image/image.go:442-461 | the same for `FROM ${n:-w}` and the heading value or w |
| `BuildArgs.ResolveFrom` | image/image.go:442-461 | an image name is accepted if and only if it has no escaped dollar and resolves, strictly, to a valid name, which is the result |
| `BuildArgs.ResolveFroms` | builder/dockerfile/builder.go:285-299 | succeeds if and only if every FROM name is accepted; the results are theirs, and the unused arguments become `AfterFroms` |
| `BuildArgs.FromsDelete` | builder/dockerfile/builder.go:378-405 | FROM lines use up exactly the keys spelled like a heading ARG with a default that they ask for |
| `BuildArgs.UnusedExactly` | builder/dockerfile/stage_builder.go:108-121 | after heading, FROM lines and all stages the unused arguments are exactly those not reserved, not declared by any ARG line, and not asked for in FROM as a heading ARG with a default |
| `BuildArgs.UnusedPlain` | builder/dockerfile/stage_builder.go:108-121 | for keys without `:-`: exactly those not reserved and not declared by any ARG line |
| `BuildArgs.MissingInput` | builder/dockerfile/builder.go:380-384 | with `--build-arg 'n:-w=v'`, `ARG n=` and `FROM ${n:-w}` the key is not unused although no ARG line declared it |
| `OnBuild.ParseOnBuild` | builder/dockerfile/parser/command.go:264-294 | accepts exactly allowed, known and parsable triggers; the line's text and command are restored also on errors |
| `OnBuild.FieldsOf` | builder/dockerfile/parser/command.go:264-270 | the fields of a text are its words, whatever white space is around them |
| `OnBuild.Append` | builder/dockerfile/stage_builder.go:345-346 | appending to a slice gives the concatenation, in place or in a new array |
| `OnBuild.Stage.UpdateStageBuilder` | builder/dockerfile/stage_builder.go:322-349 | the triggers are written out, one after the other with a newline behind each, and read as a text; for every capacity of the backing array the lines become FROM, what was read, rest, and the configuration's list is cleared |
| `OnBuild.Stage.ExecuteOnbuild` | builder/dockerfile/cmd_builder.go:301-304 | an ONBUILD line adds its text to the configuration |
| `OnBuild.ExecuteStage` | builder/dockerfile/stage_builder.go:205-210 | carrying out a stage collects exactly its ONBUILD texts, in order |
| `TriggerText.ReadBackIff` | builder/dockerfile/stage_builder.go:327-343 | triggers written one per line and parsed again give one line each, with their own commands and arguments, if and only if each is a one-liner: no newline, no backslash at the end, no more bytes than the scanner takes, a space behind the first word |
| `OnBuild.NoSpaceFails` | builder/dockerfile/parser/parser.go:161-166 | a trigger without a space, such as `RUN` alone, fails the child build |
| `OnBuild.BackslashMerges` | builder/dockerfile/parser/parser.go:142-162 | a trigger that ends in a backslash is read as one line with the next |
| `OnBuild.LongTriggerLost` | builder/dockerfile/parser/parser.go:113-114 | a trigger that is too long for the scanner is lost, and the child builds without it |
| `OnBuild.NewlineSplits` | builder/dockerfile/stage_builder.go:327-331 | a trigger with a newline in it is read as if it were two |
| `OnBuild.FiresInOrderIff` | builder/dockerfile/stage_builder.go:344-346 | the child's lines are its FROM, the triggers in order, then its own rest, if and only if the triggers are accepted one-liners |
| `OnBuild.OwnTriggersIff` | builder/dockerfile/stage_builder.go:332-346 | the committed image carries its own triggers only, if and only if no inherited one reads as an ONBUILD line |
| `OnBuild.BlockCommand` | builder/dockerfile/parser/command.go:271-274 | a logical line that starts with an accepted trigger, however many rows it has, is no ONBUILD, FROM or MAINTAINER line |
| `OnBuild.NeverOnbuild` | builder/dockerfile/stage_builder.go:326-343 | so no trigger that a Dockerfile can declare reads back as one, alone or run into others |
| `OnBuild.FireOnce` | builder/dockerfile/stage_builder.go:326-346 | across any chain of builds, from any triggers that Dockerfiles can declare, the image carries exactly the triggers of its own Dockerfile |
| `OnBuild.FireOnceFromAny` | builder/dockerfile/stage_builder.go:326-346 | from any triggers at all, so does every image from the second build on |
| `OnBuild.NewlineCarries` | builder/dockerfile/stage_builder.go:327-346 | after one build it need not: an ONBUILD line behind a newline is carried on |
| `Commit.OneChain` | builder/dockerfile/container/help.go:71-101 | there is one way from a root layer to a layer |
| `Commit.GetContainerLayers` | builder/dockerfile/container/help.go:71-101 | the layers come out from root to top along parent links; an error if and only if a parent is missing |
| `Commit.ReverseInPlace` | builder/dockerfile/container/help.go:93-98 | the list is turned around in place |
| `Commit.CountLayers` | builder/dockerfile/container/util.go:34-43 | the number of history entries that are not empty |
| `Commit.NewImageSource` | builder/dockerfile/container/container_transport.go:119-169 | one diff ID and one manifest layer per exported layer, in order; the old history is a prefix of the new, behind it the extra entries in front, the own entry and the extra entries behind; succeeds if and only if all are analysed and the history count fits |
| `Commit.ExportedLayers` | builder/dockerfile/container/container_transport.go:138-149 | exported are the layers from the root, without the container's own if that is declared empty |
| `Commit.CheckPassesIff` | builder/dockerfile/container/container_transport.go:155-162 | the check compares what was there before plus the extra entries with the layers below the container's |
| `Commit.CommitStep` | builder/dockerfile/container/help.go:234-245 | a commit on a consistent base passes and leaves a consistent image |
| `Commit.CommitsConsistent` | builder/dockerfile/container/container_transport.go:119-162 | so does any number of successive commits, from scratch or from a consistent base |
| `Commit.LayersOfSteps` | builder/dockerfile/container/help.go:71-101 | the layers at the end are those of the base and one per commit, in order |
| `Commit.HistoryOfSteps` | builder/dockerfile/container/help.go:234-245 | the history at the end is that of the base and one entry per commit, in order, with its note |
| `Commit.EntriesMatchLayers` | builder/dockerfile/container/container_transport.go:150-159 | through any number of commits the k-th non-empty entry stands for the k-th layer: those of the base keep theirs, the entry of a commit has the layer of that commit |
| `Commit.OwnEntryIff` | builder/dockerfile/container/help.go:234-245 | with extra entries, the own entry stands for the container's layer if and only if those behind it are empty |
| `Recycler.Gc.RegisterGC` | pkg/gc/gc.go:118-135 | a new node under the name, refused if and only if the name is taken |
| `Recycler.Gc.RemoveGCNode` | pkg/gc/gc.go:138-143 | the name is removed, whichever node bears it |
| `Recycler.Cell.CheckAndExec` | pkg/gc/gc.go:88-108 | a discarded node is reported, a ready one is run and its outcome recorded, any other is left alone |
| `Recycler.RunsAreSpaced` | pkg/gc/gc.go:60-108 | in every run of ticks delivered in any order: no two runs of a node overlap, starts are at least an interval apart, the first at least an interval after registration |
| `Recycler.SpacedPairs` | pkg/gc/gc.go:80-86 | starts i and j are at least j - i intervals apart |
| `Recycler.OnceStops` | pkg/gc/gc.go:72-78 | a once-node never runs again after its first success, however the run goes on |
| `Recycler.EnterRunsIff` | pkg/gc/gc.go:80-108 | in every run a goroutine that gets the lock runs its node if and only if an interval has passed since the last start or the registration and the node is not a once-node that has succeeded |
| `Recycler.SuccessIff` | pkg/gc/gc.go:96-107 | a node counts as successful if and only if one of its runs was |
| `Recycler.RunsAgain` | pkg/gc/gc.go:60-86 | a registered node that is not discarded can run again an interval after its last start |
| `Recycler.SecureRuns` | pkg/gc/gc.go:138-143 | a registered node that nothing threatens stays registered until it is discarded |
| `Recycler.CanLoseIff` | pkg/gc/gc.go:88-108 | some run loses a registered node that is not discarded, if and only if a removal of its name is under way, or another node of that name is discarded, running or ready with a goroutine left that will ask for one |
| `Recycler.StaleRemoval` | pkg/gc/gc.go:92-95 | a removal still under way when its name is registered again removes the new node |
| `Recycler.TwoRemovals` | pkg/gc/gc.go:92-95 | such a removal occurs in a run |
| `Ports.InBounds` | util/port.go:26-126 | every accepted input gives 0 <= start <= end <= 65535 and tcp, udp or sctp in lower case |
| `Ports.Idempotent` | util/port.go:26-126 | normalising the output again returns it unchanged |
| `Ports.FixedIffCanonical` | util/port.go:26-126 | the texts left unchanged are exactly the canonical ones |
| `Ports.PortSetIff` | util/port.go:26-126 | exactly which texts give which range and protocol: ports as written, tcp where no protocol is written, all else refused |
| `Decimal.AtoiItoa` | builder/dockerfile/parser/parser.go:175-177 | a stage number read back from its page name is the number |
| `Decimal.Positional` | builder/dockerfile/parser/parser.go:175-177 | numbers are written with the highest digit in front |
| `Decimal.AtoiIff` | util/port.go:52-59 | a text is read as a number if and only if it is an optional sign and digits that make a 64-bit integer |
| `Strings.LastElemOf` | daemon/separator/image_info.go:51-59 | the last element of a path is what follows its last slash |
| `Strings.UpperIs` | builder/dockerfile/parser/parser.go:167 | upper case: lower-case letters become their capitals, nothing else changes |
| `Strings.LowerIs` | util/port.go:31 | lower case: capitals become lower-case letters, nothing else changes |

## Left out

- gRPC plumbing, the command line, logging, size formatting, image listing and manifest list editing: no hard members.
- The image, storage, registry, tar, hash and JSON libraries: packing is a snapshot of a directory, the checksum an
  arbitrary function, JSON the identity; pulling an image and reading a layer's digests are parameters.
- Running commands, mounts, ownership and the file walking of ADD and COPY: effects of the operating system.
- Text outside ASCII: the scanners work byte by byte, and so does the model.
- Rendezvous.NoRunPanics: like the other theorems about runs, it holds for runs in which no two live builds share an ID,
  which clients see to by drawing random IDs.
- Progress.CanEndIff: says what some schedule can reach; that the scheduler is fair is not modelled.
- SeparatorProofs.RoundTripGiven: for images with distinct names and tarball names, base lists and lib lists that are
  equal or disjoint, and no layer named like the two fixed files; rename targets that contain a separator are outside
  it, other targets are in. Given paths lead to copies of the right tarballs. The order in which images are saved is the
  order of the sequence; the code sorts their names.
- LayerSplit.LayersInOrder: the layer hashes of the base and lib images, read from storage
  (`getLayerHashFromStorage`), are inputs.
- StageBuild.BuildsOnFinalImages: for base images without ONBUILD triggers, since pages are marked before triggers are
  known. Whether an image can be pulled is not modelled; failing commands end the build.
- KeyValues.RoundTrip: covers the scanner for `key=value` lists; the older `key value` form is one pattern match and
  is not modelled.
- Scoping.AnalyzeStage: says nothing about the tables after an error, since the build ends; the flags of HEALTHCHECK
  lines are not modelled.
- OnBuild.FireOnce: known instruction names are taken to be free of backslashes, as all of the code's are. An escape
  directive in front of the triggers of a foreign image is not modelled.
- Commit.CommitsConsistent: layer identifiers are fresh; that storage places a committed layer on the layers of its
  base is taken from the storage library.
- Commit.GetContainerLayers: for stores whose parent links end; the code would walk a cycle for ever.
