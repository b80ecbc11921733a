/**
 * The conversion pass of process_docx (app.py:95-181) and the final size pass
 * set_all_text_formatting (app.py:84-92), over an opened document and an
 * explicit colour registry.
 */
module Processing {
  import opened Wrappers
  import opened TextRules
  import opened LineClassifier
  import opened SpeakerColors
  import opened DocModel

  function Min(x: int, y: int): int {
    if x <= y then x else y
  }

  /** The loop of app.py:145-146: every run of a timecode paragraph made bold. */
  method BoldRuns(runs: seq<Run>) returns (r: seq<Run>)
    ensures r == Bolded(runs)
  {
    r := runs;
    var j := 0;
    while j < |r|
      invariant 0 <= j <= |r| == |runs|
      invariant forall k :: 0 <= k < j ==> r[k] == runs[k].(bold := Some(true))
      invariant forall k :: j <= k < |r| ==> r[k] == runs[k]
    {
      r := r[j := r[j].(bold := Some(true))];
      j := j + 1;
    }
  }

  /** set_all_text_formatting (app.py:84-92): every run of every paragraph set
      to 12 points. The test at lines 91-92 never fires, because the size was
      set on the line before it. */
  method SetAllTextFormatting(doc: Document)
    modifies doc.body
    ensures forall k :: 0 <= k < doc.body.Length ==> doc.body[k] == Formatted(old(doc.body[k]))
  {
    var body := doc.body;
    var i := 0;
    while i < body.Length
      invariant 0 <= i <= body.Length
      invariant forall k :: 0 <= k < i ==> body[k] == Formatted(old(body[k]))
      invariant forall k :: i <= k < body.Length ==> body[k] == old(body[k])
    {
      var paragraph := body[i];
      var runs := paragraph.runs;
      var j := 0;
      while j < |runs|
        invariant 0 <= j <= |runs| == |paragraph.runs|
        invariant forall k :: 0 <= k < j ==> runs[k] == paragraph.runs[k].(size := Some(BODY_SIZE))
        invariant forall k :: j <= k < |runs| ==> runs[k] == paragraph.runs[k]
      {
        runs := runs[j := runs[j].(size := Some(BODY_SIZE))];
        j := j + 1;
      }
      body[i] := paragraph.(runs := runs);
      i := i + 1;
    }
  }

  /** What one get_speaker_color call did to the registry's map and pool,
      from `colors0`/`pool0` to `colors1`/`pool1`, for `name`. */
  ghost predicate RegistryStep(colors0: map<string, Rgb>, pool0: seq<Rgb>,
                               colors1: map<string, Rgb>, pool1: seq<Rgb>, name: string)
  {
    && name in colors1
    && (name in colors0 ==> colors1 == colors0 && pool1 == pool0)
    && (name !in colors0 && pool0 != [] ==>
          pool1 == pool0[..|pool0| - 1] && colors1 == colors0[name := pool0[|pool0| - 1]]
          && colors1[name] !in colors0.Values)
    && (name !in colors0 && pool0 == [] ==> pool1 == [] && colors1 == colors0[name := colors1[name]])
  }

  /** What handling `paragraph` did to the registry: nothing unless it is a
      speaker line, one registry step for its speaker if it is. */
  ghost predicate RegistryHandled(colors0: map<string, Rgb>, pool0: seq<Rgb>,
                                  colors1: map<string, Rgb>, pool1: seq<Rgb>, paragraph: Paragraph)
  {
    match SpeakerOf(paragraph)
    case None => colors1 == colors0 && pool1 == pool0
    case Some(name) => RegistryStep(colors0, pool0, colors1, pool1, name)
  }

  /** The registry after a run of paragraphs whose speakers are `names`: it
      knows exactly those speakers, and the pool has lost one colour per
      speaker for as long as it lasted. If there are no more speakers than
      the pool held at the start, every speaker's colour is one taken from
      the pool, and no two of them share a colour. */
  ghost predicate Progress(names: set<string>, pool0: seq<Rgb>,
                           colors: map<string, Rgb>, pool: seq<Rgb>)
  {
    && colors.Keys == names
    && pool == pool0[..|pool0| - Min(|colors|, |pool0|)]
    && (|colors| <= |pool0| ==> forall n :: n in colors ==> colors[n] in pool0[|pool|..])
    && (|colors| <= |pool0| ==> Injective(colors))
  }

  /** One registry step for `name` adds `name` to the speakers the registry
      has seen and keeps its progress. */
  lemma PoolStep(names: set<string>, pool0: seq<Rgb>, colors0: map<string, Rgb>, p0: seq<Rgb>,
                 colors1: map<string, Rgb>, p1: seq<Rgb>, name: string)
    requires Progress(names, pool0, colors0, p0)
    requires RegistryStep(colors0, p0, colors1, p1, name)
    ensures Progress(names + {name}, pool0, colors1, p1)
  {
    if name !in colors0 {
      assert colors1.Keys == colors0.Keys + {name};
      assert |colors1| == |colors0| + 1;
      if p0 != [] {
        assert |colors0| < |pool0|;
        assert pool0[..|pool0| - |colors0|][..|pool0| - |colors0| - 1] == pool0[..|pool0| - |colors0| - 1];
        assert forall n :: n in colors1 ==> colors1[n] in pool0[|p1|..] by {
          PoolColorsStep(pool0, colors0, p0, colors1, p1, name);
        }
        InjectiveStep(colors0, name, pool0[|p1|]);
      }
    }
  }

  /** Giving a new speaker a colour no speaker holds keeps the map injective. */
  lemma InjectiveStep(colors0: map<string, Rgb>, name: string, c: Rgb)
    requires Injective(colors0) && name !in colors0 && c !in colors0.Values
    ensures Injective(colors0[name := c])
  {
    var colors1 := colors0[name := c];
    forall x, y | x in colors1 && y in colors1 && x != y ensures colors1[x] != colors1[y] {
      if x != name && y != name {
        assert colors1[x] == colors0[x] && colors1[y] == colors0[y];
      } else if x == name {
        assert colors0[y] in colors0.Values;
      } else {
        assert colors0[x] in colors0.Values;
      }
    }
  }

  /** When a new speaker pops a colour off the end of the pool, every
      speaker's colour is still one the pool has lost: the lost part grows by
      the colour just given. */
  lemma PoolColorsStep(pool0: seq<Rgb>, colors0: map<string, Rgb>, p0: seq<Rgb>,
                       colors1: map<string, Rgb>, p1: seq<Rgb>, name: string)
    requires 0 < |p0| <= |pool0| && p0 == pool0[..|p0|]
    requires name !in colors0
    requires p1 == p0[..|p0| - 1] && colors1 == colors0[name := p0[|p0| - 1]]
    requires forall n :: n in colors0 ==> colors0[n] in pool0[|p0|..]
    ensures forall n :: n in colors1 ==> colors1[n] in pool0[|p1|..]
  {
    assert p0[|p0| - 1] == pool0[|p1|];
    forall n | n in colors1 ensures colors1[n] in pool0[|p1|..] {
      if n == name {
        assert pool0[|p1|..][0] == pool0[|p1|];
      } else {
        assert colors0[n] in pool0[|p0|..];
        assert pool0[|p0|..] == pool0[|p1|..][1..];
      }
    }
  }

  /** Paragraphs whose speakers are already in `colors0` are rewritten the
      same way with any `colors1` that keeps those entries. */
  lemma EarlierStable(input: seq<Paragraph>, i: int,
                      colors0: map<string, Rgb>, colors1: map<string, Rgb>)
    requires 1 <= i <= |input|
    requires SpeakerNames(input, 1, i) <= colors0.Keys
    requires forall n :: n in colors0 ==> n in colors1 && colors1[n] == colors0[n]
    ensures forall k :: 1 <= k < i ==> Rewrite(input[k], colors0) == Rewrite(input[k], colors1)
  {
    forall k | 1 <= k < i ensures Rewrite(input[k], colors0) == Rewrite(input[k], colors1) {
      if SpeakerOf(input[k]).Some? {
        NamesHas(input, SpeakerOf, 1, i, k);
      }
      RewriteStable(input[k], colors0, colors1);
    }
  }

  /** Handling a paragraph never drops or changes a colour already given. */
  lemma HandledKeeps(colors0: map<string, Rgb>, p0: seq<Rgb>,
                     colors1: map<string, Rgb>, p1: seq<Rgb>, paragraph: Paragraph)
    requires RegistryHandled(colors0, p0, colors1, p1, paragraph)
    ensures forall n :: n in colors0 ==> n in colors1 && colors1[n] == colors0[n]
  {
  }

  /** Handling paragraph `i` keeps the registry's progress. */
  lemma ProgressStep(input: seq<Paragraph>, i: int, pool0: seq<Rgb>,
                     colors0: map<string, Rgb>, p0: seq<Rgb>,
                     colors1: map<string, Rgb>, p1: seq<Rgb>)
    requires 1 <= i < |input|
    requires Progress(SpeakerNames(input, 1, i), pool0, colors0, p0)
    requires RegistryHandled(colors0, p0, colors1, p1, input[i])
    ensures Progress(SpeakerNames(input, 1, i + 1), pool0, colors1, p1)
  {
    NamesStep(input, SpeakerOf, 1, i);
    match SpeakerOf(input[i])
    case None =>
    case Some(name) =>
      PoolStep(SpeakerNames(input, 1, i), pool0, colors0, p0, colors1, p1, name);
  }

  /** The paragraphs after the title once the loop of app.py:126-170 has
      reached paragraph `i`: those before it are rewritten with `colors`,
      except line numbers, which are left for later; those from `i` on are
      untouched. */
  ghost predicate Rewritten(current: seq<Paragraph>, input: seq<Paragraph>, i: nat,
                            colors: map<string, Rgb>)
  {
    && (forall k :: 1 <= k < i && k < |current| && k < |input| ==>
          current[k] == if Kind(input[k]) == LineNumber then input[k] else Rewrite(input[k], colors))
    && (forall k :: i <= k < |current| && k < |input| ==> current[k] == input[k])
  }

  /** `queued` (to_remove) lists the line numbers among the paragraphs from 1
      up to `i`, in the order the loop met them, each once. */
  ghost predicate Queued(input: seq<Paragraph>, i: nat, queued: seq<nat>)
  {
    && (forall k :: 1 <= k < i && k < |input| ==> (k in queued <==> Kind(input[k]) == LineNumber))
    && (forall j :: 0 <= j < |queued| ==> 1 <= queued[j] < i)
    && (forall j, j' :: 0 <= j < j' < |queued| ==> queued[j] < queued[j'])
  }

  /** Handling paragraph `i` moves the rewritten prefix on by one paragraph. */
  lemma RewrittenStep(before: seq<Paragraph>, after: seq<Paragraph>, input: seq<Paragraph>, i: nat,
                      colors0: map<string, Rgb>, colors1: map<string, Rgb>,
                      rewritten: Paragraph, lineNumber: bool)
    requires 1 <= i < |before| == |input|
    requires Rewritten(before, input, i, colors0)
    requires forall k :: 1 <= k < i ==> Rewrite(input[k], colors0) == Rewrite(input[k], colors1)
    requires lineNumber == (Kind(input[i]) == LineNumber)
    requires !lineNumber ==> rewritten == Rewrite(input[i], colors1)
    requires after == if lineNumber then before else before[i := rewritten]
    ensures Rewritten(after, input, i + 1, colors1)
  {
    forall k | 1 <= k < i + 1 && k < |after| && k < |input|
      ensures after[k] == if Kind(input[k]) == LineNumber then input[k] else Rewrite(input[k], colors1)
    {
      if k < i {
        assert after[k] == before[k];
      } else {
        assert k == i;
      }
    }
    forall k | i + 1 <= k < |after| && k < |input| ensures after[k] == input[k] {
      assert after[k] == before[k];
    }
  }

  /** Handling paragraph `i` queues it exactly when it is a line number. */
  lemma QueuedStep(input: seq<Paragraph>, i: nat, queued0: seq<nat>, queued1: seq<nat>, lineNumber: bool)
    requires 1 <= i < |input|
    requires Queued(input, i, queued0)
    requires lineNumber == (Kind(input[i]) == LineNumber)
    requires queued1 == if lineNumber then queued0 + [i] else queued0
    ensures Queued(input, i + 1, queued1)
  {
    assert i !in queued0 by {
      forall j | 0 <= j < |queued0| ensures queued0[j] != i {
      }
    }
    forall k | 1 <= k < i + 1 && k < |input|
      ensures k in queued1 <==> Kind(input[k]) == LineNumber
    {
      if k < i {
        assert k in queued1 <==> k in queued0;
      } else if lineNumber {
        assert queued1[|queued0|] == i;
      } else {
        assert k == i && queued1 == queued0;
      }
    }
    forall j | 0 <= j < |queued1| ensures 1 <= queued1[j] < i + 1 {
      if j < |queued0| {
        assert queued1[j] == queued0[j];
      }
    }
    forall j, j' | 0 <= j < j' < |queued1| ensures queued1[j] < queued1[j'] {
      if j' < |queued0| {
        assert queued1[j] == queued0[j] && queued1[j'] == queued0[j'];
      } else {
        assert queued1[j'] == i && queued1[j] == queued0[j];
      }
    }
  }

  /** Clearing the queued paragraphs completes the rewrite of every paragraph
      after the title. */
  lemma ClearingFinishes(current: seq<Paragraph>, cleared: seq<Paragraph>, input: seq<Paragraph>,
                         colors: map<string, Rgb>, queued: seq<nat>)
    requires |current| == |cleared| && (|input| == 0 || |current| == |input|)
    requires Rewritten(current, input, |current|, colors)
    requires Queued(input, |current|, queued)
    requires forall k :: 0 <= k < |current| ==>
               cleared[k] == if k in queued then Cleared(current[k]) else current[k]
    ensures forall k :: 1 <= k < |input| ==> cleared[k] == Rewrite(input[k], colors)
    ensures |current| > 0 ==> cleared[0] == current[0]
  {
  }

  /** One pass of the loop body of app.py:126-170 on a paragraph after the
      title. A line number is only reported (it is cleared later); any other
      paragraph comes back rewritten by its kind. Only a speaker line asks
      the registry for a colour. */
  method RewriteParagraph(registry: ColorRegistry, paragraph: Paragraph)
    returns (rewritten: Paragraph, lineNumber: bool)
    requires registry.Valid()
    modifies registry
    ensures registry.Valid()
    ensures lineNumber == (Kind(paragraph) == LineNumber)
    ensures lineNumber ==> rewritten == paragraph
    ensures !lineNumber ==> rewritten == Rewrite(paragraph, registry.colors)
    ensures RegistryHandled(old(registry.colors), old(registry.pool),
                            registry.colors, registry.pool, paragraph)
  {
    rewritten := paragraph;
    var text := Strip(Text(paragraph));
    lineNumber := IsLineNumber(text);
    if lineNumber {
      // A line number: the caller queues it and clears it after the loop.
    } else if IsTimecode(text) {
      // A timecode: every run made bold.
      var runs := BoldRuns(paragraph.runs);
      rewritten := paragraph.(runs := runs);
      assert Classify(text) == Timecode;
    } else {
      // Otherwise a speaker line is rebuilt; any other paragraph is kept.
      var speakerMatch := MatchSpeaker(text);
      if speakerMatch.Some? {
        var m := speakerMatch.value;
        var speakerName := Strip(text[..m.nameEnd]);
        var color := registry.GetSpeakerColor(speakerName);
        rewritten := HighlightSpeaker(paragraph, text, m, color);
        RewriteSpeakerLine(paragraph, registry.colors, m, color);
      }
    }
  }

  /** Lines 160-170 once the colour is known: the text is replaced by
      nothing, then the bold highlighted prefix and the plain rest are
      appended as two new runs. */
  method HighlightSpeaker(paragraph: Paragraph, text: string, m: SpeakerMatch, color: Rgb)
    returns (rewritten: Paragraph)
    requires m.prefixEnd <= |text|
    ensures rewritten == paragraph.(runs := SpeakerRuns(text, m, Some(color)))
  {
    var speakerFull := text[..m.prefixEnd];
    var rest := text[|speakerFull|..];
    rewritten := SetText(paragraph, "");
    rewritten := rewritten.(runs := rewritten.runs + [Run(speakerFull, Some(true), Some(color), None)]);
    rewritten := rewritten.(runs := rewritten.runs + [PlainRun(rest)]);
  }

  /** Part A of process_docx (app.py:106-117): paragraph 0, added if the
      document has none, becomes the title; no other paragraph changes. */
  method SetTitle(doc: Document, fileName: string)
    modifies doc, doc.body
    ensures doc.body == old(doc.body) || fresh(doc.body)
    ensures doc.body.Length == if old(doc.body.Length) == 0 then 1 else old(doc.body.Length)
    ensures doc.body[0] == Title(fileName)
    ensures forall k :: 1 <= k < doc.body.Length ==> doc.body[k] == old(doc.body[k])
  {
    if doc.body.Length == 0 {
      doc.AddParagraph();
    }
    var body := doc.body;
    var title := SetText(body[0], Upper(fileName));
    title := title.(alignment := Center);
    title := title.(runs := title.runs[0 := title.runs[0].(size := Some(TITLE_SIZE), bold := Some(true))]);
    body[0] := title;
  }

  /** The loop of app.py:174-177: every queued paragraph cleared in place. */
  method ClearQueued(body: array<Paragraph>, queued: seq<nat>)
    requires forall j :: 0 <= j < |queued| ==> queued[j] < body.Length
    modifies body
    ensures forall k :: 0 <= k < body.Length ==>
              body[k] == if k in queued then Cleared(old(body[k])) else old(body[k])
  {
    var j := 0;
    while j < |queued|
      invariant 0 <= j <= |queued|
      invariant forall k :: 0 <= k < body.Length ==>
                  body[k] == if k in queued[..j] then Cleared(old(body[k])) else old(body[k])
    {
      body[queued[j]] := Cleared(body[queued[j]]);
      j := j + 1;
    }
    assert queued[..|queued|] == queued;
  }

  /** The loop of app.py:126-170 over every paragraph after the title of
      `body`, whose paragraphs after the title are those of `input`: each is
      rewritten in place, except line numbers, which are returned (to_remove)
      for clearing. */
  method RewriteBody(registry: ColorRegistry, body: array<Paragraph>, ghost input: seq<Paragraph>)
    returns (toRemove: seq<nat>)
    requires registry.Valid() && registry.colors == map[]
    requires body.Length == if |input| == 0 then 1 else |input|
    requires forall k :: 1 <= k < body.Length ==> body[k] == input[k]
    modifies body, registry
    ensures registry.Valid()
    ensures body[0] == old(body[0])
    ensures Rewritten(body[..], input, body.Length, registry.colors)
    ensures Queued(input, body.Length, toRemove)
    ensures Progress(SpeakerNames(input, 1, |input|), old(registry.pool), registry.colors, registry.pool)
  {
    ghost var pool0 := registry.pool;
    assert pool0[..|pool0| - 0] == pool0;
    toRemove := [];
    var i: nat := 1;
    while i < body.Length
      modifies body, registry
      invariant 1 <= i <= body.Length
      invariant registry.Valid()
      invariant body[0] == old(body[0])
      invariant Rewritten(body[..], input, i, registry.colors)
      invariant Queued(input, i, toRemove)
      invariant Progress(SpeakerNames(input, 1, i), pool0, registry.colors, registry.pool)
    {
      toRemove := RewriteStep(registry, body, input, pool0, i, toRemove);
      i := i + 1;
    }
  }

  /** One turn of the loop of app.py:126-170: paragraph `i` is rewritten in
      place or queued, and the loop's invariant moves on by one paragraph. */
  method RewriteStep(registry: ColorRegistry, body: array<Paragraph>, ghost input: seq<Paragraph>,
                     ghost pool0: seq<Rgb>, i: nat, toRemove: seq<nat>)
    returns (queued: seq<nat>)
    requires 1 <= i < body.Length == |input|
    requires registry.Valid()
    requires Rewritten(body[..], input, i, registry.colors)
    requires Queued(input, i, toRemove)
    requires Progress(SpeakerNames(input, 1, i), pool0, registry.colors, registry.pool)
    modifies body, registry
    ensures registry.Valid()
    ensures body[0] == old(body[0])
    ensures Rewritten(body[..], input, i + 1, registry.colors)
    ensures Queued(input, i + 1, queued)
    ensures Progress(SpeakerNames(input, 1, i + 1), pool0, registry.colors, registry.pool)
  {
    ghost var before, colors0, p0 := body[..], registry.colors, registry.pool;
    assert body[i] == input[i];
    var rewritten, lineNumber := RewriteParagraph(registry, body[i]);
    queued := toRemove;
    if lineNumber {
      queued := queued + [i];
    } else {
      body[i] := rewritten;
    }
    assert Progress(SpeakerNames(input, 1, i + 1), pool0, registry.colors, registry.pool) by {
      ProgressStep(input, i, pool0, colors0, p0, registry.colors, registry.pool);
    }
    assert Rewritten(body[..], input, i + 1, registry.colors) by {
      HandledKeeps(colors0, p0, registry.colors, registry.pool, input[i]);
      EarlierStable(input, i, colors0, registry.colors);
      RewrittenStep(before, body[..], input, i, colors0, registry.colors, rewritten, lineNumber);
    }
    QueuedStep(input, i, toRemove, queued, lineNumber);
  }

  /** Lines 126-177: the rewrite loop, then the clearing of the queued line
      numbers. Every paragraph after the title ends rewritten by its kind with
      the colours the registry ends up holding; the title is left alone. */
  method ConvertBody(registry: ColorRegistry, body: array<Paragraph>, ghost input: seq<Paragraph>)
    requires registry.Valid() && registry.colors == map[]
    requires body.Length == if |input| == 0 then 1 else |input|
    requires forall k :: 1 <= k < body.Length ==> body[k] == input[k]
    modifies body, registry
    ensures registry.Valid()
    ensures body[0] == old(body[0])
    ensures forall k :: 1 <= k < |input| ==> body[k] == Rewrite(input[k], registry.colors)
    ensures Progress(SpeakerNames(input, 1, |input|), old(registry.pool), registry.colors, registry.pool)
  {
    var toRemove := RewriteBody(registry, body, input);
    ghost var current := body[..];
    ClearQueued(body, toRemove);
    ClearingFinishes(current, body[..], input, registry.colors, toRemove);
  }

  /** process_docx (app.py:95-181) on an opened document. The title replaces
      paragraph 0 (created if the document has none); every later paragraph is
      rewritten by its kind, with the colours the registry ends up holding;
      every run ends at 12 points. The registry's map then holds exactly the
      document's speakers, the pool has lost one colour per speaker for as
      long as it lasted. If the document has no more speakers than the pool
      held, every speaker's colour is one the pool lost, and no two speakers
      share a colour. */
  method ProcessDocx(registry: ColorRegistry, doc: Document, fileName: string)
    requires registry.Valid()
    modifies registry, doc, doc.body
    ensures registry.Valid()
    ensures doc.body.Length == if old(doc.body.Length) == 0 then 1 else old(doc.body.Length)
    ensures doc.body[0] == Formatted(Title(fileName))
    ensures forall k :: 1 <= k < old(doc.body.Length) ==>
              doc.body[k] == Formatted(Rewrite(old(doc.body[k]), registry.colors))
    ensures registry.colors.Keys == SpeakerNames(old(doc.body[..]), 1, old(doc.body.Length))
    ensures registry.pool ==
              old(registry.pool)[..|old(registry.pool)| - Min(|registry.colors|, |old(registry.pool)|)]
    ensures |registry.colors| <= |old(registry.pool)| ==>
              forall n :: n in registry.colors ==> registry.colors[n] in old(registry.pool)[|registry.pool|..]
    ensures |registry.colors| <= |old(registry.pool)| ==> Injective(registry.colors)
  {
    ghost var input := doc.body[..];
    // Each conversion starts with an empty speaker map (app.py:99-100).
    registry.ResetMap();
    SetTitle(doc, fileName);
    ConvertBody(registry, doc.body, input);
    SetAllTextFormatting(doc);
  }
}
