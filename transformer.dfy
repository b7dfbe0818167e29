/**
 * The session narrator: turns an rrweb event list into English, one sentence
 * per recognised event, sentences separated by newlines.
 */
module Transformer {
  import opened Wrappers
  import opened Strings
  import opened Rrweb
  import opened Sentences

  const UnknownComponent := "?unknown component?"
  const PathSeparator := " > "
  const LineSeparator := "\n"

  /** Custom tags that produce a sentence. */
  const CustomTags: set<string> := {
    "clicked-node-not-found",
    "clicked-without-clicking-on-any-react-component",
    "no-view-change-after-click",
    "rage-click",
    "rage-click-with-no-react-fiber",
    "dom-mutation",
    "media-load-error"
  }

  /** Custom tags whose sentence embeds the rendered component path. */
  const PathTags: set<string> := {"no-view-change-after-click", "rage-click", "media-load-error"}

  // ---------------------------------------------------------------------------
  // Component paths
  // ---------------------------------------------------------------------------

  /** `x ?? "?unknown component?"`: only a missing entry is replaced; an empty name is kept. */
  function Display(entry: Option<string>): (r: string)
    ensures entry.Some? ==> r == entry.value
    ensures entry.None? ==> r == UnknownComponent
  {
    entry.GetOr(UnknownComponent)
  }

  /** Every entry of the stack, with missing ones replaced by the placeholder. */
  function Displayed(stack: seq<Option<string>>): seq<string>
  {
    seq(|stack|, i requires 0 <= i < |stack| => Display(stack[i]))
  }

  /**
   * `componentStack.map(x => x ?? "?unknown component?").join(" > ")`: an empty
   * stack renders as "", a single entry as itself, and otherwise the rendering
   * starts with the first entry.
   */
  function RenderPath(stack: seq<Option<string>>): (r: string)
    ensures stack == [] ==> r == ""
    ensures |stack| == 1 ==> r == Display(stack[0])
    ensures |stack| > 0 ==> Display(stack[0]) <= r
  {
    Join(Displayed(stack), PathSeparator)
  }

  // ---------------------------------------------------------------------------
  // The classification table
  // ---------------------------------------------------------------------------

  /** The sentence for a mouse interaction, if its type is one of the seven named ones. */
  function MouseLine(kind: MouseInteractions): (r: Option<string>)
    ensures r.Some? <==> kind != OtherInteraction
  {
    match kind
    case MouseUp => Some(MouseUpLine)
    case MouseDown => Some(MouseDownLine)
    case Click => Some(ClickLine)
    case ContextMenu => Some(ContextMenuLine)
    case DblClick => Some(DblClickLine)
    case TouchStart => Some(TouchStartLine)
    case TouchEnd => Some(TouchEndLine)
    case OtherInteraction => None
  }

  /** The sentence for a custom event, tested against the tags in the order of `transform`'s else-if chain (transformer.ts). */
  function CustomLine(tag: string, payload: Payload): (r: Option<string>)
    ensures r.Some? <==> tag in CustomTags
  {
    if tag == "clicked-node-not-found" then
      Some(ClickedNodeNotFoundLine)
    else if tag == "clicked-without-clicking-on-any-react-component" then
      Some(ClickedWithoutComponentLine)
    else if tag == "no-view-change-after-click" then
      Some(NoViewChangeOpen + RenderPath(payload.componentStack) + NoViewChangeClose)
    else if tag == "rage-click" then
      Some(RageClickOpen + RenderPath(payload.componentStack) + RageClickClose)
    else if tag == "rage-click-with-no-react-fiber" then
      Some(RageClickWithoutFiberLine)
    else if tag == "dom-mutation" then
      Some(DomMutationLine)
    else if tag == "media-load-error" then
      Some(MediaLoadErrorOpen + "`" + payload.url + "`" + MediaLoadErrorMiddle
           + RenderPath(payload.componentStack) + MediaLoadErrorClose)
    else
      None
  }

  /** The events that the narrator describes, stated by kind rather than by sentence. */
  predicate Narrated(e: Event)
    ensures Narrated(e) ==> e.IncrementalSnapshot? || e.Custom?
    ensures e.IncrementalSnapshot? && e.data.OtherSource? ==> !Narrated(e)
  {
    match e
    case IncrementalSnapshot(MouseInteraction(kind)) => kind != OtherInteraction
    case IncrementalSnapshot(OtherSource) => false
    case Custom(tag, _) => tag in CustomTags
    case OtherEvent => false
  }

  /** The one sentence an event contributes, if any (the body of `transform`'s loop in transformer.ts). */
  function LineFor(e: Event): (r: Option<string>)
    ensures r.Some? <==> Narrated(e)
  {
    match e
    case IncrementalSnapshot(MouseInteraction(kind)) => MouseLine(kind)
    case IncrementalSnapshot(OtherSource) => None
    case Custom(tag, payload) => CustomLine(tag, payload)
    case OtherEvent => None
  }

  // ---------------------------------------------------------------------------
  // The narrative
  // ---------------------------------------------------------------------------

  /** What one pass of `transform`'s loop pushes: at most one line, and one exactly when narrated. */
  function Contribution(e: Event): (r: seq<string>)
    ensures |r| <= 1
    ensures |r| == 1 <==> Narrated(e)
  {
    match LineFor(e)
    case Some(line) => [line]
    case None => []
  }

  /** The lines `transform` pushes into `output`, in event order. */
  function Lines(events: seq<Event>): (r: seq<string>)
    ensures |r| <= |events|
  {
    if |events| == 0 then [] else Contribution(events[0]) + Lines(events[1..])
  }

  /**
   * What `transform` returns: the lines joined with newlines. It starts with the
   * sentence of the first narrated event.
   */
  function Narrative(events: seq<Event>): (r: string)
    ensures Lines(events) == [] ==> r == ""
    ensures Lines(events) != [] ==> Lines(events)[0] <= r
  {
    Join(Lines(events), LineSeparator)
  }

  /** `transform` (transformer.ts): walk the events in order, push each sentence, join at the end. */
  method Transform(replay: seq<Event>) returns (text: string)
    ensures text == Narrative(replay)
  {
    var output: seq<string> := [];
    for i := 0 to |replay|
      invariant output == Lines(replay[..i])
    {
      var line := LineFor(replay[i]);
      if line.Some? {
        output := output + [line.value];
      }
      LinesOfOneEvent(replay[i]);
      LinesAppend(replay[..i], [replay[i]]);
      assert replay[..i + 1] == replay[..i] + [replay[i]];
    }
    assert replay[..|replay|] == replay;
    text := Join(output, LineSeparator);
  }

  // ---------------------------------------------------------------------------
  // Properties of component paths
  // ---------------------------------------------------------------------------

  /** Rendering the concatenation of two non-empty stacks puts one " > " between the two renderings. */
  lemma RenderPathAppend(a: seq<Option<string>>, b: seq<Option<string>>)
    requires |a| > 0 && |b| > 0
    ensures RenderPath(a + b) == RenderPath(a) + " > " + RenderPath(b)
  {
    assert Displayed(a + b) == Displayed(a) + Displayed(b);
    JoinAppend(Displayed(a), Displayed(b), PathSeparator);
  }

  /** The path `["App", "Button"]` renders as `App > Button`; a missing entry as the placeholder. */
  lemma RenderPathExamples()
    ensures RenderPath([Some("App"), Some("Button")]) == "App > Button"
    ensures RenderPath([None, Some("Button")]) == "?unknown component? > Button"
    ensures RenderPath([]) == ""
  {
    assert Displayed([Some("App"), Some("Button")]) == ["App", "Button"];
    assert Displayed([None, Some("Button")]) == [UnknownComponent, "Button"];
  }

  // ---------------------------------------------------------------------------
  // Properties of the classification table
  // ---------------------------------------------------------------------------

  /** Distinct mouse interaction types are described by distinct sentences. */
  lemma MouseLineInjective(k1: MouseInteractions, k2: MouseInteractions)
    requires MouseLine(k1).Some? && MouseLine(k1) == MouseLine(k2)
    ensures k1 == k2
  {
  }

  /** The three path-carrying custom events embed the rendered component path. */
  lemma PathLineEmbedsPath(tag: string, payload: Payload)
    requires tag in PathTags
    ensures CustomLine(tag, payload).Some?
    ensures IsInfix(RenderPath(payload.componentStack), CustomLine(tag, payload).value)
  {
    var path := RenderPath(payload.componentStack);
    if tag == "no-view-change-after-click" {
      InfixOfConcat(NoViewChangeOpen, path, NoViewChangeClose);
    } else if tag == "rage-click" {
      InfixOfConcat(RageClickOpen, path, RageClickClose);
    } else {
      InfixOfConcat(MediaLoadErrorOpen + "`" + payload.url + "`" + MediaLoadErrorMiddle, path, MediaLoadErrorClose);
    }
  }

  /** The media-load-error sentence, split around the quoted url. */
  lemma MediaLoadErrorLine(payload: Payload)
    ensures CustomLine("media-load-error", payload) ==
      Some(MediaLoadErrorOpen + ("`" + payload.url + "`")
           + (MediaLoadErrorMiddle + RenderPath(payload.componentStack) + MediaLoadErrorClose))
  {
    var quoted := "`" + payload.url + "`";
    var rest := MediaLoadErrorMiddle + RenderPath(payload.componentStack) + MediaLoadErrorClose;
    assert CustomLine("media-load-error", payload).value == MediaLoadErrorOpen + quoted + rest;
  }

  /** The media-load-error sentence quotes the url between backticks. */
  lemma MediaLoadErrorQuotesUrl(payload: Payload)
    ensures CustomLine("media-load-error", payload).Some?
    ensures IsInfix("`" + payload.url + "`", CustomLine("media-load-error", payload).value)
  {
    MediaLoadErrorLine(payload);
    InfixOfConcat(MediaLoadErrorOpen, "`" + payload.url + "`",
                  MediaLoadErrorMiddle + RenderPath(payload.componentStack) + MediaLoadErrorClose);
  }

  /** Each of the four fixed-text custom sentences identifies its tag. */
  lemma FixedLineIdentifiesTag(tag1: string, p1: Payload, tag2: string, p2: Payload)
    requires tag1 in CustomTags - PathTags && tag2 in CustomTags - PathTags
    requires CustomLine(tag1, p1) == CustomLine(tag2, p2)
    ensures tag1 == tag2
  {
  }

  /** The four fixed-text custom events do not depend on their payload. */
  lemma FixedTagIgnoresPayload(tag: string, p1: Payload, p2: Payload)
    requires tag in CustomTags - PathTags
    ensures CustomLine(tag, p1) == CustomLine(tag, p2)
  {
  }

  /** Every sentence is non-empty. */
  lemma LineForNonEmpty(e: Event)
    ensures LineFor(e).Some? ==> |LineFor(e).value| > 0
  {
  }

  // ---------------------------------------------------------------------------
  // Properties of the narrative
  // ---------------------------------------------------------------------------

  /** Order preservation: the lines of a concatenation are the lines of each part, in order. */
  lemma {:induction false} LinesAppend(a: seq<Event>, b: seq<Event>)
    ensures Lines(a + b) == Lines(a) + Lines(b)
    decreases |a|
  {
    if |a| > 0 {
      assert (a + b)[0] == a[0];
      assert (a + b)[1..] == a[1..] + b;
      LinesAppend(a[1..], b);
      assert Lines(a + b) == Contribution(a[0]) + (Lines(a[1..]) + Lines(b));
    } else {
      assert a + b == b;
    }
  }

  /** The lines of a single event are its contribution. */
  lemma LinesOfOneEvent(e: Event)
    ensures Lines([e]) == Contribution(e)
  {
  }

  /** An event that is not narrated leaves no trace, wherever it stands. */
  lemma SkippedEventLeavesNoTrace(a: seq<Event>, e: Event, b: seq<Event>)
    requires !Narrated(e)
    ensures Lines(a + [e] + b) == Lines(a + b)
  {
    LinesOfOneEvent(e);
    assert Lines([e]) == [];
    LinesAppend(a, [e]);
    assert Lines(a + [e]) == Lines(a);
    LinesAppend(a + [e], b);
    LinesAppend(a, b);
  }

  /** There are no lines exactly when no event is narrated. */
  lemma {:induction false} LinesEmptyIff(events: seq<Event>)
    ensures Lines(events) == [] <==> forall i :: 0 <= i < |events| ==> !Narrated(events[i])
    decreases |events|
  {
    if |events| > 0 {
      LinesEmptyIff(events[1..]);
      assert forall i :: 1 <= i < |events| ==> events[i] == events[1..][i - 1];
    }
  }

  /** Every line of the narrative is non-empty. */
  lemma {:induction false} LinesNonEmpty(events: seq<Event>)
    ensures forall k :: 0 <= k < |Lines(events)| ==> |Lines(events)[k]| > 0
    decreases |events|
  {
    if |events| > 0 {
      LineForNonEmpty(events[0]);
      LinesNonEmpty(events[1..]);
    }
  }

  /** The narrative is empty exactly when no event is narrated (in particular for no events). */
  lemma NarrativeEmptyIff(events: seq<Event>)
    ensures Narrative(events) == "" <==> forall i :: 0 <= i < |events| ==> !Narrated(events[i])
  {
    LinesNonEmpty(events);
    LinesEmptyIff(events);
    JoinEmptyIff(Lines(events), LineSeparator);
  }

  /** Narrating a concatenation joins the two narratives with a newline, when both are non-empty. */
  lemma NarrativeAppend(a: seq<Event>, b: seq<Event>)
    ensures Narrative(a + b) ==
      if Narrative(a) == "" then Narrative(b)
      else if Narrative(b) == "" then Narrative(a)
      else Narrative(a) + "\n" + Narrative(b)
  {
    LinesAppend(a, b);
    LinesNonEmpty(a);
    LinesNonEmpty(b);
    JoinEmptyIff(Lines(a), LineSeparator);
    JoinEmptyIff(Lines(b), LineSeparator);
    if Lines(a) == [] {
      assert Lines(a) + Lines(b) == Lines(b);
    } else if Lines(b) == [] {
      assert Lines(a) + Lines(b) == Lines(a);
    } else {
      JoinAppend(Lines(a), Lines(b), LineSeparator);
    }
  }

  /** Narrating more events only extends the text already produced. */
  lemma NarrativeExtends(a: seq<Event>, b: seq<Event>)
    ensures Narrative(a) <= Narrative(a + b)
  {
    NarrativeAppend(a, b);
  }

  /**
   * The texts an event carries into its sentence contain no newline: the
   * present component names of a path-carrying custom event, and the url of a
   * media-load error.
   */
  predicate EmbedsNoNewline(e: Event)
  {
    match e
    case Custom(tag, payload) =>
      (tag in PathTags ==>
         forall i :: 0 <= i < |payload.componentStack| && payload.componentStack[i].Some? ==>
           '\n' !in payload.componentStack[i].value)
      && (tag == "media-load-error" ==> '\n' !in payload.url)
    case _ => true
  }

  /** A component path whose present names have no newline renders without one. */
  lemma {:induction false} RenderPathNewlineFree(stack: seq<Option<string>>)
    requires forall i :: 0 <= i < |stack| && stack[i].Some? ==> '\n' !in stack[i].value
    ensures '\n' !in RenderPath(stack)
  {
    assert '\n' !in UnknownComponent;
    assert '\n' !in PathSeparator;
    NoCharInJoin(Displayed(stack), PathSeparator, '\n');
  }

  /** An event whose embedded texts have no newline gets a sentence without one. */
  lemma LineForNewlineFree(e: Event)
    requires EmbedsNoNewline(e)
    ensures LineFor(e).Some? ==> '\n' !in LineFor(e).value
  {
    FixedTextsNewlineFree();
    if e.Custom? && e.tag in PathTags {
      RenderPathNewlineFree(e.payload.componentStack);
    }
  }

  /** When no event embeds a newline, no line of the narrative contains one. */
  lemma {:induction false} LinesNewlineFree(events: seq<Event>)
    requires forall i :: 0 <= i < |events| ==> EmbedsNoNewline(events[i])
    ensures forall k :: 0 <= k < |Lines(events)| ==> '\n' !in Lines(events)[k]
    decreases |events|
  {
    if |events| > 0 {
      LineForNewlineFree(events[0]);
      LinesNewlineFree(events[1..]);
    }
  }

  /** Splitting the newline-join of newline-free lines on newlines gives back the lines. */
  lemma {:induction false} SplitNarrative(lines: seq<string>)
    requires forall k :: 0 <= k < |lines| ==> '\n' !in lines[k]
    ensures Split(Join(lines, LineSeparator), '\n') == if lines == [] then [""] else lines
  {
    if lines != [] {
      SplitJoin(lines, '\n');
    }
  }

  /**
   * When no url or component name contains a newline, splitting the narrative
   * on newlines recovers its lines, one per narrated event.
   */
  lemma {:induction false} NarrativeSplitsIntoLines(events: seq<Event>)
    requires forall i :: 0 <= i < |events| ==> EmbedsNoNewline(events[i])
    ensures Split(Narrative(events), '\n') == if Lines(events) == [] then [""] else Lines(events)
  {
    LinesNewlineFree(events);
    SplitNarrative(Lines(events));
  }

  /** A newline in a media-load error's url ends up inside its one sentence. */
  lemma NewlineInUrlSplitsSentence(payload: Payload)
    requires '\n' in payload.url
    ensures LineFor(Custom("media-load-error", payload)).Some?
    ensures '\n' in LineFor(Custom("media-load-error", payload)).value
  {
    MediaLoadErrorLine(payload);
    var quoted := "`" + payload.url + "`";
    var line := CustomLine("media-load-error", payload).value;
    var j :| 0 <= j < |payload.url| && payload.url[j] == '\n';
    assert quoted[1 + j] == '\n';
    assert line[|MediaLoadErrorOpen| + 1 + j] == '\n';
  }

  /** A rage click on `["App", "Button"]` names both components in order. */
  lemma RageClickExample()
    ensures
      var line := LineFor(Custom("rage-click", Payload([Some("App"), Some("Button")], "")));
      line.Some? && RageClickOpen <= line.value && IsInfix("App > Button", line.value)
  {
    RenderPathExamples();
    PathLineEmbedsPath("rage-click", Payload([Some("App"), Some("Button")], ""));
  }

  /** A mouse-up followed by a media-load error narrates as two lines. */
  lemma TwoEventExample()
    ensures
      Narrative([
        IncrementalSnapshot(MouseInteraction(MouseUp)),
        Custom("media-load-error", Payload([Some("A"), Some("B")], "x.png"))
      ]) ==
      MouseUpLine + "\n" + MediaLoadErrorOpen + "`x.png`" + MediaLoadErrorMiddle + "A > B" + MediaLoadErrorClose
  {
    var events := [
      IncrementalSnapshot(MouseInteraction(MouseUp)),
      Custom("media-load-error", Payload([Some("A"), Some("B")], "x.png"))
    ];
    assert Displayed([Some("A"), Some("B")]) == ["A", "B"];
    assert RenderPath([Some("A"), Some("B")]) == "A > B";
    var media := MediaLoadErrorOpen + "`" + "x.png" + "`" + MediaLoadErrorMiddle + "A > B" + MediaLoadErrorClose;
    assert CustomLine("media-load-error", Payload([Some("A"), Some("B")], "x.png")) == Some(media);
    assert "`" + "x.png" + "`" == "`x.png`";
    assert events == [events[0]] + [events[1]];
    LinesAppend([events[0]], [events[1]]);
    LinesOfOneEvent(events[0]);
    LinesOfOneEvent(events[1]);
    assert Contribution(events[0]) == [MouseUpLine];
    assert Contribution(events[1]) == [media];
    assert Lines(events) == [MouseUpLine, media];
  }
}
