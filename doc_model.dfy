/**
 * The part of the word-processing document the converter touches: paragraphs
 * made of runs, each run with its text, bold flag, highlight colour and
 * point size; and, as functions, what the conversion does to one paragraph
 * (app.py:84-92, 104-177).
 */
module DocModel {
  import opened Wrappers
  import opened TextRules
  import opened LineClassifier
  import opened SpeakerColors

  datatype Alignment = Inherited | Left | Center | Right | Justify

  /** A run. `None` stands for a property the run does not set itself. */
  datatype Run = Run(text: string, bold: Option<bool>, highlight: Option<Rgb>, size: Option<nat>)

  datatype Paragraph = Paragraph(runs: seq<Run>, alignment: Alignment)

  /** Points of the title (app.py:116) and of every run at the end (app.py:89). */
  const TITLE_SIZE: nat := 16
  const BODY_SIZE: nat := 12

  /** What `add_run(s)` appends: a run with `s` and no formatting of its own. */
  function PlainRun(s: string): Run {
    Run(s, None, None, None)
  }

  /** A paragraph as `add_paragraph()` creates it. */
  const EMPTY_PARAGRAPH: Paragraph := Paragraph([], Inherited)

  /** The text of a sequence of runs, in order. */
  function RunsText(rs: seq<Run>): string
    decreases |rs|
  {
    if rs == [] then "" else rs[0].text + RunsText(rs[1..])
  }

  /** `paragraph.text`: the texts of its runs, joined. */
  function Text(p: Paragraph): string {
    RunsText(p.runs)
  }

  /** Assigning `paragraph.text = s`: the paragraph is cleared and one run
      holding `s` is added, even when `s` is empty. */
  function SetText(p: Paragraph, s: string): Paragraph {
    p.(runs := [PlainRun(s)])
  }

  /** `paragraph.clear()`: every run goes, the paragraph's own format stays. */
  function Cleared(p: Paragraph): Paragraph {
    p.(runs := [])
  }

  /** Every run made bold (app.py:145-146), nothing else changed. */
  function Bolded(rs: seq<Run>): seq<Run> {
    seq(|rs|, k requires 0 <= k < |rs| => rs[k].(bold := Some(true)))
  }

  /** Every run set to `size` points. */
  function Sized(rs: seq<Run>, size: nat): seq<Run> {
    seq(|rs|, k requires 0 <= k < |rs| => rs[k].(size := Some(size)))
  }

  /** set_all_text_formatting on one paragraph (app.py:86-92). */
  function Formatted(p: Paragraph): Paragraph {
    p.(runs := Sized(p.runs, BODY_SIZE))
  }

  /** The title paragraph once lines 111-117 have run: one bold run holding
      the upper-cased file name, 16 points, centred. */
  function Title(fileName: string): Paragraph {
    Paragraph([Run(Upper(fileName), Some(true), None, Some(TITLE_SIZE))], Center)
  }

  /** How a paragraph after the title is classified: on its stripped text (app.py:135). */
  function Kind(p: Paragraph): LineKind {
    Classify(Strip(Text(p)))
  }

  /** The colour stored for `name`, if any. */
  function Lookup(colors: map<string, Rgb>, name: string): Option<Rgb> {
    if name in colors then Some(colors[name]) else None
  }

  /** The speaker whose colour the paragraph asks for, if it is a speaker line. */
  function SpeakerOf(p: Paragraph): Option<string> {
    var t := Strip(Text(p));
    match Classify(t)
    case Speaker(m) => Some(SpeakerName(t, m))
    case _ => None
  }

  /** The rewrite of a speaker line whose speaker has been given `color`. */
  lemma RewriteSpeakerLine(p: Paragraph, colors: map<string, Rgb>, m: SpeakerMatch, color: Rgb)
    requires Classify(Strip(Text(p))) == Speaker(m)
    requires Lookup(colors, SpeakerName(Strip(Text(p)), m)) == Some(color)
    ensures Rewrite(p, colors) == p.(runs := SpeakerRuns(Strip(Text(p)), m, Some(color)))
  {
  }

  /** The three runs a speaker line is rebuilt from (app.py:160-170): the run
      left by `paragraph.text = ""`, the bold highlighted prefix, and the rest. */
  function SpeakerRuns(t: string, m: SpeakerMatch, color: Option<Rgb>): seq<Run>
    requires m.prefixEnd <= |t|
  {
    [PlainRun(""), Run(t[..m.prefixEnd], Some(true), color, None), PlainRun(t[m.prefixEnd..])]
  }

  /** What the conversion does to a paragraph after the title, before the
      final size pass, given the speaker colours (app.py:135-177): a line
      number is cleared, a timecode is bolded, a speaker line is rebuilt,
      anything else is kept. */
  function Rewrite(p: Paragraph, colors: map<string, Rgb>): Paragraph {
    var t := Strip(Text(p));
    match Classify(t)
    case LineNumber => Cleared(p)
    case Timecode => p.(runs := Bolded(p.runs))
    case Speaker(m) => p.(runs := SpeakerRuns(t, m, Lookup(colors, SpeakerName(t, m))))
    case Plain => p
  }

  /** The names `f` picks out of the elements of `ps` from `lo` up to, not
      including, `hi`, collected one element at a time. */
  function Names<P>(ps: seq<P>, f: P -> Option<string>, lo: int, hi: int): set<string>
    decreases hi - lo
  {
    if hi <= lo || lo < 0 then {}
    else Names(ps, f, lo, hi - 1) + (if hi - 1 < |ps| && f(ps[hi - 1]).Some? then {f(ps[hi - 1]).value} else {})
  }

  /** The speakers named by the paragraphs of `ps` from `lo` up to, not
      including, `hi`. */
  function SpeakerNames(ps: seq<Paragraph>, lo: int, hi: int): set<string> {
    Names(ps, SpeakerOf, lo, hi)
  }

  // ---------------------------------------------------------------------
  // Lemmas about the text of runs
  // ---------------------------------------------------------------------

  /** Runs with the same texts, position by position, have the same text. */
  lemma {:induction false} RunsTextSameTexts(a: seq<Run>, b: seq<Run>)
    requires |a| == |b|
    requires forall k :: 0 <= k < |a| ==> a[k].text == b[k].text
    ensures RunsText(a) == RunsText(b)
    decreases |a|
  {
    if a != [] {
      RunsTextSameTexts(a[1..], b[1..]);
    }
  }

  /** Bolding keeps every run's text and makes every run bold. */
  lemma BoldedKeepsText(rs: seq<Run>)
    ensures |Bolded(rs)| == |rs|
    ensures RunsText(Bolded(rs)) == RunsText(rs)
    ensures forall k :: 0 <= k < |rs| ==> Bolded(rs)[k].bold == Some(true)
  {
    RunsTextSameTexts(Bolded(rs), rs);
  }

  /** Sizing keeps every run's text and gives every run the size. */
  lemma SizedKeepsText(rs: seq<Run>, size: nat)
    ensures |Sized(rs, size)| == |rs|
    ensures RunsText(Sized(rs, size)) == RunsText(rs)
    ensures forall k :: 0 <= k < |rs| ==> Sized(rs, size)[k].size == Some(size)
  {
    RunsTextSameTexts(Sized(rs, size), rs);
  }

  // ---------------------------------------------------------------------
  // Lemmas about one paragraph
  // ---------------------------------------------------------------------

  /** A paragraph whose stripped text is all digits ends with no runs and no
      text, and stays where it was with its own format (app.py:139-141, 174-177). */
  lemma RewriteLineNumber(p: Paragraph, colors: map<string, Rgb>)
    requires Strip(Text(p)) != [] && AllDigits(Strip(Text(p)))
    ensures Kind(p) == LineNumber
    ensures Rewrite(p, colors).runs == [] && Text(Rewrite(p, colors)) == ""
    ensures Rewrite(p, colors).alignment == p.alignment
  {
    ClassifyStripped(Strip(Text(p)));
  }

  /** A timecode paragraph keeps its runs' texts and has every run bold
      (app.py:144-146); it never gets the speaker treatment. */
  lemma RewriteTimecode(p: Paragraph, colors: map<string, Rgb>)
    requires Kind(p) == Timecode
    ensures |Rewrite(p, colors).runs| == |p.runs|
    ensures Text(Rewrite(p, colors)) == Text(p)
    ensures forall k :: 0 <= k < |p.runs| ==>
              Rewrite(p, colors).runs[k] == p.runs[k].(bold := Some(true))
    ensures Rewrite(p, colors).alignment == p.alignment
    ensures SpeakerOf(p).None?
  {
    BoldedKeepsText(p.runs);
  }

  /** A speaker paragraph matches the speaker pattern, names its speaker, and
      is rebuilt from the three runs of `SpeakerRuns` with that speaker's
      colour, which spell out its stripped text; its alignment is kept
      (app.py:150-170). */
  lemma RewriteSpeaker(p: Paragraph, colors: map<string, Rgb>)
    requires Kind(p).Speaker?
    ensures SpeakerShape(Strip(Text(p)), Kind(p).m.nameEnd, Kind(p).m.prefixEnd)
    ensures SpeakerOf(p) == Some(SpeakerName(Strip(Text(p)), Kind(p).m))
    ensures Rewrite(p, colors) ==
              p.(runs := SpeakerRuns(Strip(Text(p)), Kind(p).m,
                                     Lookup(colors, SpeakerName(Strip(Text(p)), Kind(p).m))))
    ensures Text(Rewrite(p, colors)) == Strip(Text(p))
  {
    var t := Strip(Text(p));
    var m := Kind(p).m;
    MatchSpeakerIsPattern(t);
    var c := Lookup(colors, SpeakerName(t, m));
    var rs := SpeakerRuns(t, m, c);
    assert Rewrite(p, colors).runs == rs;
    SpeakerRunsText(t, m, c);
    assert Text(Rewrite(p, colors)) == RunsText(rs);
  }

  /** The three runs of a speaker line: an empty plain run, the matched
      prefix in bold with the colour, and the plain rest; together they
      spell out the line's text. */
  lemma SpeakerRunsText(t: string, m: SpeakerMatch, color: Option<Rgb>)
    requires m.prefixEnd <= |t|
    ensures var rs := SpeakerRuns(t, m, color);
            && |rs| == 3
            && rs[0] == PlainRun("")
            && rs[1] == Run(t[..m.prefixEnd], Some(true), color, None)
            && rs[2] == PlainRun(t[m.prefixEnd..])
            && rs[1].text + rs[2].text == t
            && RunsText(rs) == t
  {
    var rs := SpeakerRuns(t, m, color);
    ThreeRunsText(rs);
    assert t[..m.prefixEnd] + t[m.prefixEnd..] == t;
  }

  /** The text of three runs. */
  lemma ThreeRunsText(rs: seq<Run>)
    requires |rs| == 3
    ensures RunsText(rs) == rs[0].text + rs[1].text + rs[2].text
  {
    assert rs[1..][1..][1..] == [];
    assert RunsText(rs[1..][1..]) == rs[2].text + "";
  }

  /** A paragraph that is none of the three kinds is left exactly as it was. */
  lemma RewritePlain(p: Paragraph, colors: map<string, Rgb>)
    requires Kind(p) == Plain
    ensures Rewrite(p, colors) == p
  {
  }

  /** The colour a paragraph receives depends only on its own speaker's entry:
      adding other speakers to the map does not change it. */
  lemma RewriteStable(p: Paragraph, colors: map<string, Rgb>, more: map<string, Rgb>)
    requires SpeakerOf(p).Some? ==>
               SpeakerOf(p).value in colors && SpeakerOf(p).value in more
               && more[SpeakerOf(p).value] == colors[SpeakerOf(p).value]
    ensures Rewrite(p, colors) == Rewrite(p, more)
  {
  }

  /** After the final pass every run has 12 points and the text is unchanged;
      this also sets the title back from 16 to 12 points (app.py:86-92, 181). */
  lemma FormattedSizes(p: Paragraph)
    ensures |Formatted(p).runs| == |p.runs|
    ensures Text(Formatted(p)) == Text(p)
    ensures forall k :: 0 <= k < |p.runs| ==> Formatted(p).runs[k].size == Some(BODY_SIZE)
    ensures Formatted(p).alignment == p.alignment
  {
    SizedKeepsText(p.runs, BODY_SIZE);
  }

  /** The title holds the upper-cased file name whatever paragraph it replaced,
      is bold and centred, and ends at 12 points (app.py:111-117, 181). */
  lemma TitleFacts(fileName: string)
    ensures Text(Formatted(Title(fileName))) == Upper(fileName)
    ensures Formatted(Title(fileName)).runs ==
              [Run(Upper(fileName), Some(true), None, Some(BODY_SIZE))]
    ensures Formatted(Title(fileName)).alignment == Center
    ensures forall k :: 0 <= k < |Upper(fileName)| ==> !('a' <= Text(Title(fileName))[k] <= 'z')
  {
    UpperAt(fileName);
    var r := Title(fileName).runs;
    assert r[1..] == [];
    assert RunsText(r) == r[0].text + RunsText(r[1..]);
    assert Upper(fileName) + "" == Upper(fileName);
    FormattedSizes(Title(fileName));
  }

  /** Adding element `k` to the range adds at most the name it gives. */
  lemma NamesStep<P>(ps: seq<P>, f: P -> Option<string>, lo: int, k: int)
    requires 0 <= lo <= k < |ps|
    ensures f(ps[k]).None? ==> Names(ps, f, lo, k + 1) == Names(ps, f, lo, k)
    ensures f(ps[k]).Some? ==> Names(ps, f, lo, k + 1) == Names(ps, f, lo, k) + {f(ps[k]).value}
  {
  }

  /** Every element in the range that gives a name contributes it. */
  lemma {:induction false} NamesHas<P>(ps: seq<P>, f: P -> Option<string>, lo: int, hi: int, k: int)
    requires 0 <= lo <= k < hi <= |ps|
    requires f(ps[k]).Some?
    ensures f(ps[k]).value in Names(ps, f, lo, hi)
    decreases hi - lo
  {
    if k < hi - 1 {
      NamesHas(ps, f, lo, hi - 1, k);
    }
  }

  /** Every name collected is given by an element in the range. */
  lemma {:induction false} NamesOnly<P>(ps: seq<P>, f: P -> Option<string>, lo: int, hi: int, name: string)
    requires name in Names(ps, f, lo, hi)
    ensures exists k :: lo <= k < hi && k < |ps| && f(ps[k]) == Some(name)
    decreases hi - lo
  {
    if !(hi - 1 < |ps| && f(ps[hi - 1]) == Some(name)) {
      NamesOnly(ps, f, lo, hi - 1, name);
    }
  }

  /** The speakers collected are exactly those of the speaker lines in the
      range. */
  lemma SpeakerNamesExactly(ps: seq<Paragraph>, lo: int, hi: int, name: string)
    requires 0 <= lo <= hi <= |ps|
    ensures name in SpeakerNames(ps, lo, hi) <==>
              exists k :: lo <= k < hi && SpeakerOf(ps[k]) == Some(name)
  {
    if name in SpeakerNames(ps, lo, hi) {
      NamesOnly(ps, SpeakerOf, lo, hi, name);
    }
    if k :| lo <= k < hi && SpeakerOf(ps[k]) == Some(name) {
      NamesHas(ps, SpeakerOf, lo, hi, k);
    }
  }

  // ---------------------------------------------------------------------
  // The document object
  // ---------------------------------------------------------------------

  /** The opened document: its body is an array of paragraphs that the
      conversion updates in place. */
  class Document {
    var body: array<Paragraph>

    /** `Document(io.BytesIO(...))`, with the parsed paragraphs given. */
    constructor (paragraphs: seq<Paragraph>)
      ensures fresh(body) && body[..] == paragraphs
    {
      body := new Paragraph[|paragraphs|](k requires 0 <= k < |paragraphs| => paragraphs[k]);
    }

    /** `document.add_paragraph()`: one empty paragraph at the end. */
    method AddParagraph()
      modifies this
      ensures fresh(body)
      ensures body[..] == old(body[..]) + [EMPTY_PARAGRAPH]
    {
      var grown := new Paragraph[body.Length + 1]
        (k requires 0 <= k < body.Length + 1 reads this, body =>
           if k < body.Length then body[k] else EMPTY_PARAGRAPH);
      body := grown;
    }
  }
}
