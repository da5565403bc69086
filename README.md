# nano-canvas core in Dafny

This project models the core of nano-canvas. nano-canvas is a browser canvas where image nodes and prompt nodes are wired together. A prompt node sends its text, plus the images of the nodes wired into it, to Google AI's image model, and shows the generated picture.

The model covers these parts:

- **Graph store** (`CanvasGraph`, `CanvasStore`). It holds the node and edge lists and the actions that replace them. Edge normalisation derives each edge's `idle`/`processing` state from its endpoints.
- **Node factory** (`NodeUtils`). It builds prompt nodes, image nodes and edges, tests node kinds, and counts nodes by kind.
- **Connection gesture** (`Connection`). Dragging from an output handle either links two handles or spawns a wired prompt node on empty canvas.
- **Generation workflow** (`GenerationWorkflow`). It gathers the prompt and reference images of a prompt node and brackets the service call with the node's processing state.
- **Image generation service** (`GenerationService`). It validates the request and settings, builds the Google AI request, turns the reply into a data URL and blob, and classifies failures.
- **Settings store and settings panel** (`SettingsStore`, `SettingsPanelView`).
- **Prompt node component** (`PromptNodeView`) and **image upload hook** (`ImageUpload`).

`Wrappers`, `Text` and `Seqs` hold support definitions:

- `Option` and the `Update` patch type, which stands for an object spread;
- JavaScript string operations: `trim`, `split`, `includes`, ASCII `toLowerCase`;
- a sequence filter.

How the model is built:

- Code that the source runs step by step is written as classes whose fields the methods reassign:
  - the two zustand stores;
  - the connection hook, with its React state and refs;
  - the settings panel's draft state;
  - the upload hook's callback log.
- Pure helpers are functions with lemmas.
- Outside calls are function parameters:
  - the flow library's change appliers, `addEdge` and `screenToFlowPosition`;
  - the Google AI `generateContent` call and `fetch`;
  - the `URL` parser and `FileReader`;
  - the random id part and the time stamp.

## Model

| member | source | states |
|---|---|---|
| NodeUtils.GenerateId | src/lib/node-utils.ts:9-15 | the id is the prefix, a dash, then the random part |
| NodeUtils.WithDefaultPosition | src/lib/node-utils.ts:17-22 | finite coordinates are kept and non-finite ones become 0, so the result is always finite |
| NodeUtils.CreatePromptNode | src/lib/node-utils.ts:24-38 | kind `promptNode`, id prefixed `prompt-`, position defaulted; label `Prompt <index>`, prompt `''` and `shouldFocus` true unless overridden; every override holds in the data |
| NodeUtils.CreateImageNode | src/lib/node-utils.ts:40-52 | kind `imageNode`, id prefixed `image-`, label `Image <index>` unless overridden; every override holds |
| NodeUtils.TagTestsExclusive | src/lib/node-utils.ts:54-60 | `isPromptNode` and `isImageNode` are never both true and are false for a missing node |
| NodeUtils.CreateSmoothEdge | src/lib/node-utils.ts:62-75 | given endpoints and type `smoothstep`; the given id is used, else `<source>-<target>-<stamp>` |
| NodeUtils.NodesOfType | src/lib/node-utils.ts:77-78 | exactly the nodes whose type equals the tag |
| NodeUtils.NodesOfTypeOne | src/lib/node-utils.ts:77-78 | a single node is kept exactly when its type equals the tag |
| NodeUtils.NodesOfTypeConcat | src/lib/node-utils.ts:77-78 | selecting from a concatenation concatenates the selections, so the nodes keep their order |
| NodeUtils.CountNodesByType | src/lib/node-utils.ts:77-78 | the count never exceeds the number of nodes |
| NodeUtils.CountNodesByTypeConcat | src/lib/node-utils.ts:77-78 | counts add up over a concatenation, and one node counts one exactly when it carries the tag |
| NodeUtils.CountsOfDistinctTags | src/lib/node-utils.ts:77-78 | the counts of two different tags add up to at most the number of nodes |
| NodeUtils.CountIsTotalIffAllTagged | src/lib/node-utils.ts:77-78 | the count equals the node count iff every node has the tag |
| CanvasGraph.NodeIndex | src/store/canvasStore.ts:63-64 | `find` by id: the first node with the id, and none iff no node has it |
| CanvasGraph.FindNode | src/store/canvasStore.ts:63-64 | a found node is in the list and has the id; found iff some node has the id |
| CanvasGraph.FindUnique | src/store/canvasStore.ts:63-64 | with unique ids, lookup returns the node at each position |
| CanvasGraph.NodeIndexByIds | src/store/canvasStore.ts:134-149 | lookup depends only on the sequence of ids |
| CanvasGraph.ResolveEdgeState | src/store/canvasStore.ts:62-68 | `processing` only when some endpoint exists |
| CanvasGraph.EdgeStateUnderUniqueIds | src/store/canvasStore.ts:52-68 | with unique ids an edge is `processing` iff some node at one of its ends has `isProcessing` true |
| CanvasGraph.EnhanceEdge | src/store/canvasStore.ts:102-129 | same id and endpoints; type kept or `smoothstep`; not animated; state and `edge-track edge-<state>` class from the endpoints; dash `8 4`; radius kept or 72 |
| CanvasGraph.NormalisedIffFixedPoint | src/store/canvasStore.ts:102-129 | normalising yields a normalised edge, an edge is normalised iff normalising leaves it unchanged, and normalising twice equals once |
| CanvasGraph.EnhanceEdges | src/store/canvasStore.ts:131-132 | same length, ids and endpoints, each edge normalised against the nodes |
| CanvasGraph.EnhanceEdgesIdempotent | src/store/canvasStore.ts:131-132 | re-deriving twice equals once, and edges are derived iff re-deriving leaves them unchanged |
| CanvasGraph.EnhanceEdgesRebase | src/store/canvasStore.ts:131-132 | deriving against one node list and then another equals deriving against the second alone |
| CanvasGraph.NoDanglingEnhanced | src/store/canvasStore.ts:131-132 | re-deriving never makes an edge dangle |
| CanvasGraph.WithoutNode | src/store/canvasStore.ts:244 | exactly the nodes with another id remain |
| CanvasGraph.WithoutIncidentEdges | src/store/canvasStore.ts:245-247 | exactly the edges touching neither end at the id remain |
| CanvasGraph.WithoutEdge | src/store/canvasStore.ts:256 | exactly the edges with another id remain |
| CanvasGraph.NoDanglingAfterDelete | src/store/canvasStore.ts:242-252 | the cascade delete leaves no dangling edge |
| CanvasGraph.UniqueAfterDelete | src/store/canvasStore.ts:244 | deleting keeps node ids unique |
| CanvasGraph.UniqueFilter | src/store/canvasStore.ts:244 | any filter keeps node ids unique |
| CanvasGraph.AppendFreshNode | src/store/canvasStore.ts:223-226 | appending a node with a fresh id keeps ids unique |
| CanvasGraph.WithUpdatedNode | src/store/canvasStore.ts:134-149 | same length and ids; nodes with another id unchanged; the node with the id gets the updated data |
| CanvasGraph.WithUpdatedPromptNode | src/store/canvasStore.ts:407-429 | like the general update, but only a prompt node with the id changes |
| CanvasGraph.UnknownIdIsNoop | src/store/canvasStore.ts:134-149 | an update of an absent id leaves the nodes unchanged |
| CanvasGraph.FindAfterUpdate | src/store/canvasStore.ts:134-149 | after an update, lookup finds the updated node for the id and the old node otherwise |
| CanvasGraph.DerivedKeptWhenProcessingUntouched | src/store/canvasStore.ts:343-349 | an update that leaves `isProcessing` alone keeps every edge state correct without re-deriving |
| CanvasGraph.Generated | src/store/canvasStore.ts:414-427 | sets url, blob, model and usage; scale kept or 1; not busy, no error; prompt and label kept |
| CanvasGraph.ResultCleared | src/store/canvasStore.ts:459-472 | drops url, blob, model, usage and error; not busy; scale 1; prompt and label kept |
| CanvasGraph.ClearUndoesGenerate | src/store/canvasStore.ts:407-479 | clearing after generating is the same as clearing |
| CanvasGraph.StartMarksIncidentEdges | src/store/canvasStore.ts:378-391 | after `startProcessing(id)` every edge at an existing node `id` is `processing` |
| CanvasGraph.StopReleasesIncidentEdges | src/store/canvasStore.ts:393-405 | after `stopProcessing(id)` an edge from `id` is `processing` iff its other end is busy |
| CanvasGraph.ProcessingPatchCanStaleEdges | src/store/canvasStore.ts:343-349 | a patch that sets `isProcessing` through `updateNodeData` leaves the starter edge stale |
| CanvasGraph.StarterGraph | src/store/canvasStore.ts:70-92 | the starter graph is `image-1` and `prompt-1` joined by `edge-image-prompt`; ids are unique, nothing dangles and the edge is idle |
| CanvasGraph.CountBasedIdsCollide | src/store/canvasStore.ts:272-293 | spawn, delete `prompt-1`, then spawn again: this gives two nodes `prompt-3` |
| CanvasGraph.ConnectedTextNodeFresh | src/store/canvasStore.ts:272-293 | when the count-based id is free, the spawn keeps ids unique and its edge does not dangle |
| CanvasGraph.PairedNodesChain | src/store/canvasStore.ts:295-328 | the image and prompt nodes have different ids, sit 50 above the point, and are wired source, then image, then prompt |
| CanvasGraph.SameIdsSameShape | src/store/canvasStore.ts:134-149 | updates that keep the ids keep membership, uniqueness and dangling-freedom |
| CanvasGraph.FindAfterAppend | src/store/canvasStore.ts:223-226 | appending does not change what lookup finds for an existing id |
| CanvasGraph.AppendKeepsDerived | src/store/canvasStore.ts:223-226 | appending a node keeps existing edges derived and not dangling |
| CanvasGraph.NoDanglingWithoutEdge | src/store/canvasStore.ts:254-260 | removing an edge never makes another one dangle |
| CanvasGraph.FindAfterPromptUpdate | src/store/canvasStore.ts:407-429 | lookup after a prompt-only update finds the updated node only for a prompt node with the id |
| CanvasGraph.DataAt | src/store/canvasStore.ts:63-64 | a node's data exists iff the node does |
| CanvasGraph.DataAfterUpdate | src/store/canvasStore.ts:134-149 | the updated node's data is the updater applied to its old data, and its type is kept |
| CanvasGraph.DataAfterPromptUpdate | src/store/canvasStore.ts:407-429 | the updater applies only when the node is a prompt node, and the type is kept |
| CanvasStore.Store.constructor | src/store/canvasStore.ts:151-152 | a fresh store holds the starter graph, well formed |
| CanvasStore.Store.HandleNodesChange | src/store/canvasStore.ts:205-208 | nodes from the change applier; edges untouched |
| CanvasStore.Store.HandleEdgesChange | src/store/canvasStore.ts:210-216 | edges from the change applier, then re-derived |
| CanvasStore.Store.Connect | src/store/canvasStore.ts:218-221 | the flow library's `addEdge`, then re-derived |
| CanvasStore.Store.AddNode | src/store/canvasStore.ts:223-226 | appends without an id check; stays well formed only when the id was fresh |
| CanvasStore.Store.AddEdge | src/store/canvasStore.ts:228-231 | appends and re-derives; stays well formed when both endpoints exist |
| CanvasStore.Store.AddNodeWithEdge | src/store/canvasStore.ts:233-240 | appends node then edge and re-derives against the new nodes; well formed when the id was fresh and the edge's ends exist |
| CanvasStore.Store.DeleteNode | src/store/canvasStore.ts:242-252 | the node and every edge touching it are gone, the rest re-derived, and the store stays well formed |
| CanvasStore.Store.RemoveEdge | src/store/canvasStore.ts:254-260 | no edge with the id remains; well formedness kept |
| CanvasStore.Store.ResetCanvas | src/store/canvasStore.ts:262-269 | back to the starter graph, well formed |
| CanvasStore.Store.CreateConnectedTextNode | src/store/canvasStore.ts:272-293 | appends `prompt-<count+1>` and its edge; well formed only when that id was free |
| CanvasStore.Store.CreateConnectedImageTextNode | src/store/canvasStore.ts:295-341 | appends the image and prompt nodes and both edges; edges derived |
| CanvasStore.Store.UpdateNodeData | src/store/canvasStore.ts:343-349 | merges the patch; edges not re-derived, so well formed only when `isProcessing` is not patched |
| CanvasStore.Store.UploadImageToNode | src/store/canvasStore.ts:351-366 | sets image, clears error and busy flags, re-derives; well formed kept |
| CanvasStore.Store.UpdatePrompt | src/store/canvasStore.ts:368-376 | sets prompt and focus hint, clears error; edges untouched yet still derived |
| CanvasStore.Store.StartProcessing | src/store/canvasStore.ts:378-391 | node busy, and every edge at an existing node is `processing` |
| CanvasStore.Store.StopProcessing | src/store/canvasStore.ts:393-405 | node idle, edges re-derived, well formed kept |
| CanvasStore.Store.SetGeneratedImage | src/store/canvasStore.ts:407-435 | only a prompt node with the id records the result; edges re-derived |
| CanvasStore.Store.SetError | src/store/canvasStore.ts:437-450 | records the message, clears the busy flags, re-derives |
| CanvasStore.Store.ClearResult | src/store/canvasStore.ts:452-479 | a prompt node drops its result; edges re-derived |
| CanvasStore.Store.UpdateOutputScale | src/store/canvasStore.ts:481-501 | a prompt node gets the scale; edges re-derived |
| CanvasStore.Store.Partialize | src/store/canvasStore.ts:503-509 | only nodes and edges are persisted |
| CanvasStore.Store.Rehydrate | src/store/canvasStore.ts:503-509 | restoring a snapshot gives back exactly that snapshot |
| Connection.ClientPointOf | src/hooks/useConnection.ts:46-57 | the mouse point, else the first touch, else the first changed touch; none iff a touch event has neither |
| Connection.SpawnedNode | src/hooks/useConnection.ts:136-148 | a prompt node 60 above the release point, labelled after the prompt count, focused, unable to originate |
| Connection.SpawnedEdge | src/hooks/useConnection.ts:150-153 | from the origin to the new node, `smoothstep`, id `<origin>-<node>-...` |
| Connection.ConnectionController.constructor | src/hooks/useConnection.ts:71-78 | starts at rest with no listener and no calls |
| Connection.ConnectionController.Commit | src/hooks/useConnection.ts:80-82 | after render the nodes ref is synced and listeners are attached exactly while a gesture is active |
| Connection.ConnectionController.ResetConnectionState | src/hooks/useConnection.ts:84-89 | back at rest with the indicator cleared |
| Connection.ConnectionController.SafeConnect | src/hooks/useConnection.ts:91-97 | forwards the connection once and sets the completed latch |
| Connection.ConnectionController.FinalizeConnection | src/hooks/useConnection.ts:99-159 | no gesture: nothing. No point, completed latch, missing or unfit origin: reset with no call. Otherwise exactly one `addNodeWithEdge` of the spawned node and edge, then reset |
| Connection.ConnectionController.HandleConnectStart | src/hooks/useConnection.ts:161-198 | starts a gesture iff the handle is a source, the node id is set, a point exists and the node can originate; the indicator shows the point |
| Connection.ConnectionController.HandleConnectEnd | src/hooks/useConnection.ts:200-209 | finalizes with the event's point |
| Connection.ConnectionController.DispatchPointerMove | src/hooks/useConnection.ts:220-229 | while listening during a gesture, the indicator follows the pointer |
| Connection.ConnectionController.DispatchPointerUp | src/hooks/useConnection.ts:231-238 | during a gesture it finalizes; otherwise it clears the indicator |
| Connection.SpawnGesture | src/hooks/useConnection.ts:99-251 | a drop on empty canvas gives one `addNodeWithEdge` call, even though both end handlers fire |
| Connection.LinkGesture | src/hooks/useConnection.ts:91-159 | a completed link gives the one `connect` call and no spawn |
| Connection.RejectedGesture | src/hooks/useConnection.ts:180-189 | a drag from a node that cannot originate changes nothing |
| GenerationService.ApproxPromptTokens | src/services/imageGenerationService.ts:39-46 | 0 iff the text is blank, otherwise the trimmed length divided by 4 and rounded up |
| GenerationService.FindModelRecord | src/services/imageGenerationService.ts:55-57 | a found record has the id; none iff no record has it |
| GenerationService.GetModelConfig | src/services/imageGenerationService.ts:49-66 | no config iff the model is blank; provider, base URL and token limit come from the catalogue entry or the fallbacks |
| GenerationService.DefaultSettingsConfig | src/services/imageGenerationService.ts:49-107 | the default settings give Nano Banana on the default endpoint and stop at the missing key |
| GenerationService.EnsurePromptProvided | src/services/imageGenerationService.ts:68-78 | an error iff the prompt is blank |
| GenerationService.EnsureCredentials | src/services/imageGenerationService.ts:80-107 | missing config, then blank key, then blank base URL; passes iff key and base URL have content |
| GenerationService.InlineParts | src/services/imageGenerationService.ts:165-173 | at most one inline part per reference image, and only inline parts |
| GenerationService.InlinePartsOne | src/services/imageGenerationService.ts:167-171 | one image gives one inline part with its type and data when both are non-empty strings, and nothing otherwise |
| GenerationService.InlinePartsConcat | src/services/imageGenerationService.ts:165-173 | the parts of a concatenation are the concatenated parts, so the images keep their order |
| GenerationService.InlinePartsFromUsable | src/services/imageGenerationService.ts:165-173 | every inline part carries the data and type of a usable reference image |
| GenerationService.AllUsableAllSent | src/services/imageGenerationService.ts:165-173 | when all images are usable, each is sent once and in order |
| GenerationService.GooglePromptParts | src/services/imageGenerationService.ts:158-176 | the prompt text first, then only inline parts |
| GenerationService.GooglePromptPartsAppend | src/services/imageGenerationService.ts:158-176 | without images only the prompt text; appending images appends exactly their parts |
| GenerationService.BuildGooglePromptParts | src/services/imageGenerationService.ts:158-176 | the push loop produces exactly those parts |
| GenerationService.ClassifyError | src/services/imageGenerationService.ts:235-279 | quota or 429 first, then `api key`, then `fetch` (case-insensitive); a message with none of them is reported as `Image generation failed: <message>`; always a non-empty error with the model |
| GenerationService.DownloadFailureIsPrefixed | src/services/imageGenerationService.ts:109-115 | a failed download surfaces with the generic prefix |
| GenerationService.QuotaTakesPrecedence | src/services/imageGenerationService.ts:239-262 | a message with both 429 and `API key` is reported as a quota error |
| GenerationService.FirstInline | src/services/imageGenerationService.ts:201-206 | a reply part with inline data and no such part before it; none iff no part has any |
| GenerationService.RespondWithImage | src/services/imageGenerationService.ts:212-233 | always names the model; exactly one of a non-empty error and an image URL; a failed download gives the classified download error, a thrown download the classified thrown message; a result carries the data URL, the downloaded blob and the usage |
| GenerationService.GenerateWithGoogle | src/services/imageGenerationService.ts:178-280 | always names the model; exactly one of a non-empty error and an image URL; a thrown call or a reply without inline data is classified; when the first inline part has data, a successful download yields its image as `data:<mime or image/png>;base64,<data>` with the blob and approximate usage, and a failed or thrown download the classified error; an image comes from nowhere else |
| GenerationService.ProcessRequest | src/services/imageGenerationService.ts:117-156 | the prompt check first, then credentials, then the provider; a client that fails to construct gives `Image generation failed: <message>`; past that, a thrown call or a reply without inline data is classified, and a first inline part with data yields its image when the download succeeds and the classified download error otherwise; an image only when all checks pass; every response carries exactly one of a non-empty error and an image URL |
| GenerationService.BlankBaseUrlFallsBack | src/services/imageGenerationService.ts:59-66 | a blank base URL falls back to the catalogue endpoint |
| GenerationWorkflow.ConnectedSources | src/hooks/useImageGenerationWorkflow.ts:33-36 | exactly the sources of the edges that end at the node |
| GenerationWorkflow.ConnectedSourcesOne | src/hooks/useImageGenerationWorkflow.ts:33-36 | one edge contributes its source exactly when it ends at the node |
| GenerationWorkflow.ConnectedSourcesConcat | src/hooks/useImageGenerationWorkflow.ts:33-36 | the sources of a concatenation are the concatenated sources, in edge order |
| GenerationWorkflow.MimeOf | src/hooks/useImageGenerationWorkflow.ts:50-51 | `image/jpeg` without a colon; otherwise the whole text after the first colon up to the next colon or semicolon |
| GenerationWorkflow.SplitDataUrl | src/hooks/useImageGenerationWorkflow.ts:47-52 | splits iff the URL has exactly one comma; the URL is head, comma, data |
| GenerationWorkflow.DataUrlRoundTrip | src/hooks/useImageGenerationWorkflow.ts:47-54 | a data URL the service builds splits back into its type and data |
| GenerationWorkflow.ReferenceImageOf | src/hooks/useImageGenerationWorkflow.ts:39-73 | an image node gives its upload, a prompt node its generated image, any other node nothing |
| GenerationWorkflow.GeneratedImageFeedsForward | src/hooks/useImageGenerationWorkflow.ts:57-70 | a prompt node's generated `data:` URL comes back as exactly the type and data the service encoded |
| GenerationWorkflow.UploadedImageFeedsForward | src/hooks/useImageGenerationWorkflow.ts:42-55 | an image node's uploaded `data:` URL comes back as exactly its type and data |
| GenerationWorkflow.ReferenceImages | src/hooks/useImageGenerationWorkflow.ts:38-74 | each reference image comes from one of the wired source nodes |
| GenerationWorkflow.ReferenceImagesOne | src/hooks/useImageGenerationWorkflow.ts:38-74 | one source contributes its image when it has one and nothing otherwise |
| GenerationWorkflow.ReferenceImagesConcat | src/hooks/useImageGenerationWorkflow.ts:38-74 | the images of a concatenation are the concatenated images, in source order |
| GenerationWorkflow.WorkflowRequest | src/hooks/useImageGenerationWorkflow.ts:18-85 | no request iff the prompt is missing or blank; otherwise the trimmed prompt and the wired images |
| GenerationWorkflow.OutcomeExclusive | src/hooks/useImageGenerationWorkflow.ts:86-107 | an outcome records at most one step, and never a result together with an error |
| GenerationWorkflow.OutcomeExactlyOne | src/hooks/useImageGenerationWorkflow.ts:86-107 | a thrown call or a response with exactly one of error and image records exactly one step, the image step iff there is an image |
| GenerationWorkflow.ApplyStep | src/store/canvasStore.ts:343-449 | the node list one store action leaves behind (`setError`, `startProcessing`, `updateNodeData` clearing the error, `setGeneratedImage`, `stopProcessing`), with the same ids |
| GenerationWorkflow.ApplySteps | src/hooks/useImageGenerationWorkflow.ts:25-109 | the node list a sequence of store actions leaves behind, with the same ids |
| GenerationWorkflow.ApplyStepsConcat | src/hooks/useImageGenerationWorkflow.ts:25-109 | running two action sequences one after the other equals running their concatenation |
| GenerationWorkflow.WorkflowSteps | src/hooks/useImageGenerationWorkflow.ts:16-111 | starts with `startProcessing` iff there is a request, and then also ends with `stopProcessing` |
| GenerationWorkflow.BeginProcessing | src/hooks/useImageGenerationWorkflow.ts:76-79 | the nodes are exactly those `startProcessing` and then the error-clearing `updateNodeData` leave; edges are re-derived against the busy node; type and ids kept |
| GenerationWorkflow.RecordOutcome | src/hooks/useImageGenerationWorkflow.ts:86-107 | the nodes are exactly those the recorded steps (an error, or an image) leave; edges unchanged when nothing is recorded and re-derived otherwise |
| GenerationWorkflow.RunRequest | src/hooks/useImageGenerationWorkflow.ts:76-110 | the nodes are exactly those `startProcessing`, the error clear, the recorded outcome and `stopProcessing` leave, in that order; edges re-derived against the final nodes; the node ends idle, with no error when nothing was recorded |
| GenerationWorkflow.ProcessConnectedNodes | src/hooks/useImageGenerationWorkflow.ts:16-111 | the nodes are exactly those the store actions of `WorkflowSteps` leave, in order; edges re-derived against the final nodes; a blank prompt performs only the prompt error; the node ends idle; well formedness kept |
| SettingsStore.Settings.constructor | src/store/settingsStore.ts:43-48 | the defaults, which are not configured |
| SettingsStore.Settings.SetApiKey | src/store/settingsStore.ts:51 | sets the key only |
| SettingsStore.Settings.SetBaseUrl | src/store/settingsStore.ts:52 | sets the base URL only |
| SettingsStore.Settings.SetModel | src/store/settingsStore.ts:53 | sets the model only |
| SettingsStore.Settings.ToggleSettings | src/store/settingsStore.ts:54-55 | flips the panel's visibility only |
| SettingsStore.Settings.SetShowSettings | src/store/settingsStore.ts:56 | sets the visibility only |
| SettingsStore.Settings.SetTheme | src/store/settingsStore.ts:57 | sets the theme only |
| SettingsStore.Settings.ClearSettings | src/store/settingsStore.ts:58-64 | persisted fields back to defaults, visibility kept, no longer configured |
| SettingsStore.Settings.IsConfigured | src/store/settingsStore.ts:67-70 | true iff key and base URL both have non-whitespace content |
| SettingsStore.Settings.Partialize | src/store/settingsStore.ts:74-79 | the persisted slice leaves out the visibility |
| SettingsStore.Settings.Rehydrate | src/store/settingsStore.ts:72-80 | restoring a snapshot gives it back and keeps the visibility |
| SettingsStore.ToggleTwice | src/store/settingsStore.ts:54-55 | two toggles restore the visibility |
| PromptNodeView.ScaleToSize | src/components/PromptNode.tsx:32-41 | 3 gives 420×360, 2 gives 360×270, anything else 300×180 |
| PromptNodeView.SizesGrowWithScale | src/components/PromptNode.tsx:32-41 | a larger scale gives a strictly wider and taller preview |
| PromptNodeView.NextScale | src/components/PromptNode.tsx:117-122 | one up capped at 3, or one down floored at 1; stays in [1,3]; changes iff not at the bound |
| PromptNodeView.StepsUndo | src/components/PromptNode.tsx:117-122 | up then down, or down then up, returns to the start away from the bounds |
| PromptNodeView.AdjustOutputScale | src/components/PromptNode.tsx:117-129 | the store is written only when the scale changes, and then with the new scale |
| PromptNodeView.CanSubmit | src/components/PromptNode.tsx:195-196 | iff the prompt has content and the node is not busy |
| PromptNodeView.SubmittableNodeHasRequest | src/components/PromptNode.tsx:89-94 | a node allowed to submit always produces a workflow request |
| PromptNodeView.RunVisionWorkflow | src/components/PromptNode.tsx:89-94 | does nothing unless the node can submit; otherwise runs the workflow |
| PromptNodeView.HandleRegenerate | src/components/PromptNode.tsx:96-101 | does nothing while busy; otherwise runs the workflow |
| PromptNodeView.OutputHandle | src/components/PromptNode.tsx:242-248 | the output handle exists iff a generated image is set, and its id is the node id followed by `-output` |
| PromptNodeView.OutputHandleIffCanOriginate | src/components/PromptNode.tsx:242-248 | a prompt node shows an output handle iff a drag may start from it |
| PromptNodeView.ConsumeFocus | src/components/PromptNode.tsx:73-80 | a pending focus request is cleared in the store exactly once it is honoured |
| ImageUpload.SizeLimitInclusive | src/hooks/useImageUpload.ts:27-32 | a file of exactly the limit passes, and one byte more fails |
| ImageUpload.NonImageRejected | src/hooks/useImageUpload.ts:21-25 | a type not starting with `image/` is rejected whatever the size |
| ImageUpload.LimitMonotone | src/hooks/useImageUpload.ts:27-32 | raising the limit never rejects an accepted file |
| ImageUpload.UploadsFor | src/hooks/useImageUpload.ts:39-51 | one upload of the file's data URL iff the file is valid |
| ImageUpload.FirstPastedImage | src/hooks/useImageUpload.ts:91-100 | the first image item that yields a file; every item before it fails one of the tests |
| ImageUpload.Uploader.constructor | src/hooks/useImageUpload.ts:14-18 | the size limit defaults to 10 MB |
| ImageUpload.Uploader.ProcessFile | src/hooks/useImageUpload.ts:39-51 | an invalid file never reaches the callback |
| ImageUpload.Uploader.HandleFileSelect | src/hooks/useImageUpload.ts:54-64 | only the first file is processed, and the input is always cleared |
| ImageUpload.Uploader.HandleDrop | src/hooks/useImageUpload.ts:67-78 | only the first dropped file is processed |
| ImageUpload.Uploader.HandlePaste | src/hooks/useImageUpload.ts:86-103 | the loop processes the first pasted image with a file and stops |
| SettingsPanelView.ValidateApiKey | src/components/SettingsPanel.tsx:60-70 | `API key is required.` iff blank; no error iff the trimmed key matches `AIza` and 30 or more key characters |
| SettingsPanelView.KeyShapedHasNoWhitespace | src/components/SettingsPanel.tsx:64-66 | a key of that shape has no whitespace |
| SettingsPanelView.TrimKeepsContent | src/components/SettingsPanel.tsx:61-64 | trimming does not change whether a value has content |
| SettingsPanelView.SavedKeyValidatesAlike | src/components/SettingsPanel.tsx:106 | the saved, trimmed key validates exactly as the draft did |
| SettingsPanelView.ValidateBaseUrl | src/components/SettingsPanel.tsx:72-85 | empty, unparsable and non-`https:` URLs each get their message; no error iff it parses as `https:` |
| SettingsPanelView.SaveDecision | src/components/SettingsPanel.tsx:102-104 | save stops iff some validator reports an error |
| SettingsPanelView.ConfiguredAfterSave | src/components/SettingsPanel.tsx:95-113 | a save that passed both validators leaves the store configured |
| SettingsPanelView.SettingsPanel.constructor | src/components/SettingsPanel.tsx:30-37 | drafts come from the store, with no errors |
| SettingsPanelView.SettingsPanel.SyncFromStore | src/components/SettingsPanel.tsx:46-50 | the drafts follow the store's values |
| SettingsPanelView.SettingsPanel.RevalidateApiKey | src/components/SettingsPanel.tsx:87-89 | the shown key error is the validator's result on the key draft; nothing else changes |
| SettingsPanelView.SettingsPanel.RevalidateBaseUrl | src/components/SettingsPanel.tsx:91-93 | the shown URL error is the validator's result on the URL draft; nothing else changes |
| SettingsPanelView.SettingsPanel.HandleApiKeyChange | src/components/SettingsPanel.tsx:140-142 | edits only the key draft |
| SettingsPanelView.SettingsPanel.HandleSave | src/components/SettingsPanel.tsx:95-124 | shows both errors; writes nothing when either fails; otherwise stores the trimmed key and URL and the model, and flags success |
| SettingsPanelView.SettingsPanel.WriteDrafts | src/components/SettingsPanel.tsx:106-109 | trimmed key and base URL and the model go to the store |
| SettingsPanelView.SettingsPanel.SaveTimerElapsed | src/components/SettingsPanel.tsx:110-113 | the success flag drops and the panel closes |
| SettingsPanelView.SettingsPanel.HandleClear | src/components/SettingsPanel.tsx:131-138 | the store is cleared and the drafts reset to the defaults; the key error is `API key is required.` |
| SettingsPanelView.SettingsPanel.SaveDisabled | src/components/SettingsPanel.tsx:198 | disabled only without a fresh success and with some error |
| SettingsPanelView.SaveGateMatchesSave | src/components/SettingsPanel.tsx:198 | once revalidated, save is disabled iff no save just succeeded and a save would be refused |

## Left out

- The persist middleware's storage I/O is not modelled; only the persisted slice and the restore are.
- After a restore, `isProcessing` is not cleared. The model keeps this: `Rehydrate` restores the snapshot as is.
- Rendering is not modelled: the JSX, class names other than the edge class, toasts, `console` output, focus trapping and the model dropdown.
- The flow library's change appliers, `addEdge` and `screenToFlowPosition` are parameters with no contract. So nothing is claimed about duplicate links or the ids `addEdge` gives.
- The edge `data`, `style` and `pathOptions` objects keep their other keys. The model keeps only the keys the store sets: state, dash pattern and corner radius.
- Asynchronous interleaving is not modelled. `processConnectedNodes` is one atomic sequence, and the service's answer is a parameter (`Request -> ServiceOutcome`); the answer stands for whatever `processRequest` resolves to or throws.
- The `FileReader` delivery is not modelled. It is taken as immediate: each accepted file's data URL goes straight to the callback log.
- `generateImageFromPrompt` is not modelled as its own member. It only forwards to `processRequest`, which `ProcessRequest` models.
- The branch `Unable to load model configuration` of `processRequest` cannot be reached once the credentials pass, so it is not modelled. Its outer `catch` is reached only by a client constructor that throws, which `ProcessRequest` takes as its `client` parameter; `buildGooglePromptParts` cannot throw on the modelled values.
- PromptNode handlers are not modelled as members where they only forward to store actions modelled above: prompt edit, reset, delete and the keyboard shortcut. The clipboard copy and the download are browser I/O and are not modelled either.
- Strings are sequences of code points, not UTF-16 units, so lengths differ for characters outside the BMP. `toLowerCase` is modelled for ASCII letters only.
- The `URL` parser is a parameter giving the protocol or nothing, so WHATWG URL parsing is not modelled.
- PromptNodeView.AdjustOutputScale requires the node's scale to be absent or 1 to 3. That is what its declared type `1 | 2 | 3` promises; persisted data holding another value is not covered.
- Random ids and time stamps are parameters, so the randomness of ids is not modelled.

## Where the code departs from the documented design

The model follows the code in each of these places:

- `addNode` does not reject a duplicate id. `AddNode` keeps the store well formed only when the id was fresh.
- `handleNodesChange`, `updateNodeData` and `updatePrompt` do not re-derive edges. A patch that sets `isProcessing` can leave an edge stale, as `ProcessingPatchCanStaleEdges` shows. `UpdatePrompt` is safe because it does not touch `isProcessing`.
- `createConnectedTextNode` and `createConnectedImageTextNode` derive ids from the node count, not from a random generator. Those ids can collide, as `CountBasedIdsCollide` shows.
- `connect` delegates to the flow library's `addEdge`. The store itself checks neither endpoint existence nor duplicates.
