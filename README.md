# Session narrator of replay-mcp, in Dafny

replay-mcp records a user's browser session with rrweb, renders it to video and asks a
generative model what went wrong. Its one piece of pure logic is the narrator,
`transform` in `transformer.ts`. The narrator walks the recorded events in order and
classifies each one against a fixed if/else table. A recognised event produces one
English sentence. The sentences are joined with newlines.

This project models that narrator and proves its properties:

- `events.dfy` (module `Rrweb`) holds the part of an rrweb event that the narrator
  reads: the event type, an incremental snapshot's source and mouse-interaction type,
  and a custom event's tag, component stack and url. Every type the narrator does not
  name falls into a catch-all constructor.
- `transformer.dfy` (module `Transformer`) holds the component-path rendering, the
  classification table (`MouseLine`, `CustomLine`, `LineFor`), the specification of
  the output (`Lines`, `Narrative`) and `Transform`. `Transform` is `transform`'s loop:
  it pushes each sentence into a local `output` and joins the lines at the end. The
  file also holds the lemmas about the narrative.
- `sentences.dfy` (module `Sentences`) holds the fixed English text of every sentence.
  Long texts are assembled from pieces of at most thirty characters, and each piece
  is proved free of newlines.
- `strings.dfy` (module `Strings`) holds JavaScript's `Array.prototype.join`, its
  inverse for a one-character separator (`split`), and an infix test.
- `wrappers.dfy` (module `Wrappers`) holds `Option`. In this model `Option` stands for
  a JavaScript value that may be `null` or `undefined`, and `GetOr` plays the role of
  `??`.

`transform` returns one newline-joined string, and `Lines` is the list it joins. Each
sentence constant in `sentences.dfy` is the text `transform` pushes, character for
character.

## Model

| member | source | states |
|---|---|---|
| `Transformer.Display` | transformer.ts:37 | `x ?? "?unknown component?"`: a present entry is kept as it is, even when it is the empty string; a null or undefined entry becomes `?unknown component?` |
| `Transformer.RenderPath` | transformer.ts:37 | `componentStack.map(x => x ?? "?unknown component?").join(" > ")`: an empty stack renders as "", a one-entry stack as that entry, and any non-empty rendering starts with the first entry |
| `Transformer.Narrated` | transformer.ts:12-46 | only incremental snapshots and custom events are ever narrated; an incremental snapshot whose source is not MouseInteraction never is |
| `Transformer.Narrative` | transformer.ts:49 | the returned string is "" when there are no lines, and otherwise starts with the sentence of the first narrated event |
| `Strings.Join` | transformer.ts:49 | `Array.prototype.join`: the empty list joins to "", a single part to itself, and a non-empty list to a string that starts with its first part |
| `Transformer.Transform` | transformer.ts:8-50 | the loop returns exactly the specified narrative: the sentences of the events, in event order, joined with "\n" (the loop invariant says `output` holds the lines of the events seen so far) |
| `Transformer.LineFor` | transformer.ts:12-47 | an event yields a sentence exactly when it is a mouse interaction of one of the seven named types or a custom event with one of the seven named tags; every other event type or incremental source yields nothing |
| `Transformer.MouseLine` | transformer.ts:13-28 | a mouse interaction yields a sentence exactly when its type is MouseUp, MouseDown, Click, ContextMenu, DblClick, TouchStart or TouchEnd |
| `Transformer.CustomLine` | transformer.ts:30-46 | a custom event yields a sentence exactly when its tag is one of the seven recognised names; any other tag yields nothing |
| `Transformer.Contribution` | transformer.ts:11-47 | one pass of the loop pushes at most one line, and pushes exactly one when the event is narrated (the branches form one if/else-if chain) |
| `Transformer.Lines` | transformer.ts:11-48 | there are never more output lines than input events |
| `Transformer.MouseLineInjective` | transformer.ts:14-27 | the seven mouse sentences are pairwise distinct, so a sentence identifies its interaction type |
| `Transformer.FixedLineIdentifiesTag` | transformer.ts:32-43 | the fixed sentences of the four fixed-text tags are pairwise distinct, so a sentence identifies its tag |
| `Transformer.FixedTagIgnoresPayload` | transformer.ts:32-43 | the sentences for `clicked-node-not-found`, `clicked-without-clicking-on-any-react-component`, `rage-click-with-no-react-fiber` and `dom-mutation` do not depend on the payload |
| `Transformer.PathLineEmbedsPath` | transformer.ts:36-45 | the `no-view-change-after-click`, `rage-click` and `media-load-error` sentences contain the rendered component path |
| `Transformer.MediaLoadErrorQuotesUrl` | transformer.ts:44-45 | the `media-load-error` sentence contains the url between backticks |
| `Transformer.LineForNonEmpty` | transformer.ts:14-45 | no sentence is the empty string |
| `Transformer.RenderPathAppend` | transformer.ts:37 | rendering the concatenation of two non-empty component stacks puts exactly one " > " between the renderings of the two parts |
| `Transformer.RenderPathExamples` | transformer.ts:37 | `["App", "Button"]` renders as `App > Button`; a null entry renders as `?unknown component?`; an empty stack renders as the empty string |
| `Transformer.LinesAppend` | transformer.ts:11-48 | order preservation: the lines of `a + b` are the lines of `a` followed by the lines of `b` |
| `Transformer.LinesOfOneEvent` | transformer.ts:11-47 | the lines of a one-event list are what that event's loop pass pushes |
| `Transformer.SkippedEventLeavesNoTrace` | transformer.ts:12-30 | inserting an event that is not narrated anywhere in the list leaves the lines unchanged |
| `Transformer.LinesEmptyIff` | transformer.ts:11-47 | there are no lines exactly when no event is narrated |
| `Transformer.LinesNonEmpty` | transformer.ts:11-48 | every output line is non-empty |
| `Transformer.NarrativeEmptyIff` | transformer.ts:9-49 | the result is the empty string exactly when no event is narrated, in particular for an empty event list |
| `Transformer.NarrativeAppend` | transformer.ts:11-49 | the result for `a + b` is the result for `a`, a newline, then the result for `b`, with no newline when either side is empty |
| `Transformer.NarrativeExtends` | transformer.ts:11-49 | narrating more events only extends the text: the result for `a` is a prefix of the result for `a + b` |
| `Transformer.NarrativeSplitsIntoLines` | transformer.ts:11-49 | when no url or component name embedded in a sentence contains a newline, splitting the result on "\n" recovers the lines, one per narrated event; with no lines it gives `[""]` |
| `Transformer.LinesNewlineFree` | transformer.ts:11-48 | when no event embeds a newline, no pushed line contains one |
| `Transformer.LineForNewlineFree` | transformer.ts:12-47 | an event whose embedded component names and url have no newline gets a sentence without one |
| `Transformer.RenderPathNewlineFree` | transformer.ts:37 | a component path whose present names have no newline renders without one (the placeholder and " > " have none) |
| `Transformer.NewlineInUrlSplitsSentence` | transformer.ts:44-45 | a newline in a media-load error's url ends up inside its sentence, so the one-line-per-event split needs the hypothesis |
| `Sentences.FixedTextsNewlineFree` | transformer.ts:15-45 | none of the fixed sentence texts and none of the fixed text around embedded values contains a newline |
| `Transformer.RageClickExample` | transformer.ts:38-39 | a rage click on `["App", "Button"]` gives a sentence that starts with the rage-click text and contains `App > Button` |
| `Transformer.TwoEventExample` | transformer.ts:8-49 | a mouse-up followed by a `media-load-error` event with url `x.png` and stack `["A", "B"]` gives the two sentences separated by one newline |
| `Strings.JoinAppend` | transformer.ts:49 | `join` of a concatenation of two non-empty lists puts one separator between the two joins |
| `Strings.JoinEmptyIff` | transformer.ts:49 | when every part is non-empty, `join` gives the empty string exactly for the empty list |
| `Strings.NoCharInJoin` | transformer.ts:49 | a character that occurs in neither the parts nor the separator does not occur in their join |
| `Strings.JoinSplit` | transformer.ts:49 | splitting a string on a character and joining the pieces with that character gives back the string |
| `Strings.SplitJoin` | transformer.ts:49 | joining a non-empty list of parts that do not contain the separator character, then splitting, gives back the parts |

## Left out

- `index.ts`, the HTTP server, is not part of this model: its routes, CORS headers, directory creation, file writes and reads, the `rrvideo` subprocess, the generative-model call and the unawaited deletions are I/O and foreign-library glue with no pure behaviour to state.
- `walker.ts` is not part of this model. It is a top-level script that scans files with a glob, builds a `RegExp` from `.gitignore`, and reads and writes files.
- Saving the events, rendering, diagnosing and deleting the files (index.ts:34-99) is the request handler's glue, left out with the rest of `index.ts` above. No rendezvous broker appears in `transformer.ts`, `index.ts` or `walker.ts`, so none is modelled.
- rrweb's numeric enum values and the external `CustomEvent` type are not part of this model. Event types, incremental sources and mouse-interaction types are constructors. The ones the narrator does not name are gathered into `OtherEvent`, `OtherSource` and `OtherInteraction`.
- A custom event whose payload has no `componentStack` array would make the JavaScript throw for the three path-carrying tags. transformer.ts:37, 39 and 45 read `componentStack` and `url` without a guard; the model gives every payload a component stack and a url string. A missing url, which JavaScript would print as `undefined`, is not modelled.
- `NarrativeSplitsIntoLines`: takes as a hypothesis that no embedded url or component name contains a newline. The fixed texts are proved free of newlines, so only such a url or name can break the one-line-per-event split, and `NewlineInUrlSplitsSentence` shows that one does.
- JavaScript strings are UTF-16 code-unit sequences; the model uses sequences of Dafny's `char`, a Unicode scalar value. A string with an unpaired surrogate, which `JSON.parse` can produce in a url or component name, cannot be represented and is not modelled.
