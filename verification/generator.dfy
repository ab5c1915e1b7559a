/** The two text routines of the AI generator that do not talk to the model:
    the decoder that splits the model's structured reply into the three
    generated files, and the block of text that tells the model what the
    Jenkins server already has. The model's reply itself is an input. */
module Generator {
  import opened Wrappers
  import opened Text
  import opened Dicts
  import opened JenkinsCli
  import opened Seqs

  // ---------------------------------------------------------------------------
  // The structured-reply decoder (`_parse_structured_response`)
  // ---------------------------------------------------------------------------

  /** The three sections a reply can hold. */
  datatype Section = JenkinsfileSection | JobConfigSection | PluginsSection

  /** The file name each section is stored under. */
  function Key(s: Section): string {
    match s
    case JenkinsfileSection => "Jenkinsfile"
    case JobConfigSection => "pipeline_job_config.xml"
    case PluginsSection => "required_plugins.xml"
  }

  predicate IsKey(k: string) {
    k == "Jenkinsfile" || k == "pipeline_job_config.xml" || k == "required_plugins.xml"
  }

  datatype Marker = Begin(section: Section) | End

  /** The line that announces each section, and the one that ends the reply. */
  function MarkerText(m: Marker): string {
    match m
    case Begin(JenkinsfileSection) => "=== JENKINSFILE ==="
    case Begin(JobConfigSection) => "=== PIPELINE_JOB_CONFIG ==="
    case Begin(PluginsSection) => "=== REQUIRED_PLUGINS ==="
    case End => "=== END ==="
  }

  /** What a line of the reply is to the decoder: one of the four markers, or
      a line of text. */
  datatype Token = Mark(marker: Marker) | Text(line: string)

  /** A line is a marker when, trimmed, it is that marker's text. */
  function Classify(line: string): (tok: Token)
    ensures tok.Text? ==> tok.line == line
  {
    ClassifyStripped(Strip(line), line)
  }

  /** The token for `line`, whose trimmed form is `t`; the marker texts are
      tested in the order the decoder tests them. */
  function ClassifyStripped(t: string, line: string): (tok: Token)
    ensures tok.Text? ==> tok.line == line
  {
    if t == MarkerText(Begin(JenkinsfileSection)) then Mark(Begin(JenkinsfileSection))
    else if t == MarkerText(Begin(JobConfigSection)) then Mark(Begin(JobConfigSection))
    else if t == MarkerText(Begin(PluginsSection)) then Mark(Begin(PluginsSection))
    else if t == MarkerText(End) then Mark(End)
    else Text(line)
  }

  /** The four marker texts differ (already in their lengths), so each is
      recognised as itself. */
  lemma MarkerTextRecognised(m: Marker, line: string)
    ensures ClassifyStripped(MarkerText(m), line) == Mark(m)
  {
    assert |MarkerText(Begin(JenkinsfileSection))| == 19;
    assert |MarkerText(Begin(JobConfigSection))| == 27;
    assert |MarkerText(Begin(PluginsSection))| == 24;
    assert |MarkerText(End)| == 11;
  }

  /** A marker line is recognised even when indented or followed by blanks. */
  lemma MarkerPadded(m: Marker, pre: string, post: string)
    requires AllSpace(pre) && AllSpace(post)
    ensures Classify(pre + MarkerText(m) + post) == Mark(m)
  {
    var t := MarkerText(m);
    assert t[0] == '=' && t[|t| - 1] == '=';
    StripPadded(pre, t, post);
    MarkerTextRecognised(m, pre + t + post);
  }

  lemma MarkerRoundTrip(m: Marker)
    ensures Classify(MarkerText(m)) == Mark(m)
  {
    MarkerPadded(m, "", "");
    AppendEmpty(MarkerText(m));
  }

  /** The reply's lines as the decoder sees them. */
  function Tokens(lines: seq<string>): (ts: seq<Token>)
    ensures |ts| == |lines|
  {
    Map(Classify, lines)
  }

  /** Each line becomes its own token. */
  lemma TokensAt(lines: seq<string>, k: nat)
    requires k < |lines|
    ensures Tokens(lines)[k] == Classify(lines[k])
  {
    MapAt(Classify, lines, k);
  }

  lemma TokensAppend(a: seq<string>, b: seq<string>)
    ensures Tokens(a + b) == Tokens(a) + Tokens(b)
  {
    MapAppend(Classify, a, b);
  }

  /** No line of `lines` is a marker: they are all section content. */
  predicate MarkerFree(lines: seq<string>) {
    forall i :: 0 <= i < |lines| ==> Classify(lines[i]).Text?
  }

  /** Lines that are all text, as tokens. */
  function Texts(body: seq<string>): (ts: seq<Token>)
    ensures |ts| == |body|
  {
    if body == [] then [] else [Text(body[0])] + Texts(body[1..])
  }

  lemma {:induction false} TextsAt(body: seq<string>, k: nat)
    requires k < |body|
    ensures Texts(body)[k] == Text(body[k])
  {
    if k > 0 {
      TextsAt(body[1..], k - 1);
    }
  }

  lemma TokensText(body: seq<string>)
    requires MarkerFree(body)
    ensures Tokens(body) == Texts(body)
  {
    forall k | 0 <= k < |body| ensures Tokens(body)[k] == Texts(body)[k] {
      TokensAt(body, k);
      TextsAt(body, k);
    }
  }

  lemma TokensMarker(m: Marker)
    ensures Tokens([MarkerText(m)]) == [Mark(m)]
  {
    MarkerRoundTrip(m);
    TokensAt([MarkerText(m)], 0);
  }

  /** The decoder's variables between two lines: the files stored so far,
      the open section and the lines collected for it. */
  datatype Decoder = Decoder(files: map<string, string>, section: Option<Section>, content: seq<string>)

  const Initial := Decoder(map[], None, [])

  /** Files whose keys are section names and whose values are trimmed. */
  predicate SaneFiles(files: map<string, string>) {
    forall k :: k in files ==> IsKey(k) && NoOuterSpace(files[k])
  }

  /** The files after storing the open section, when there is one and it
      collected at least one line: its lines re-joined and trimmed. */
  function Flush(d: Decoder): map<string, string>
  {
    if d.section.Some? && d.content != [] then d.files[Key(d.section.value) := Strip(Join(d.content, "\n"))]
    else d.files
  }

  /** The check after the scan: the open section is stored only if its key
      is not there yet. */
  function Finish(d: Decoder): map<string, string>
  {
    if d.section.Some? && d.content != [] && Key(d.section.value) !in d.files then Flush(d) else d.files
  }

  /** Storing the open section keeps the files sane. */
  lemma FlushSane(d: Decoder)
    requires SaneFiles(d.files)
    ensures SaneFiles(Flush(d)) && SaneFiles(Finish(d))
  {
    if d.section.Some? && d.content != [] {
      var k := Key(d.section.value);
      assert IsKey(k);
      forall k' | k' in Flush(d) ensures IsKey(k') && NoOuterSpace(Flush(d)[k']) {
        if k' != k { assert k' in d.files; }
      }
    }
  }

  /** The decoder after one token that is not the end marker. In the source
      (`fixed == false`) the Jenkinsfile marker opens its section without
      storing the one that was open; the other two section markers store it
      first. `fixed == true` gives the evidently intended decoder, where every
      section marker does. */
  function Step(d: Decoder, tok: Token, fixed: bool): Decoder
  {
    match tok
    case Mark(Begin(s)) =>
      Decoder(if s == JenkinsfileSection && !fixed then d.files else Flush(d), Some(s), [])
    case Mark(End) => d
    case Text(line) => if d.section.Some? then d.(content := d.content + [line]) else d
  }

  /** The files the decoder returns when it reaches token `i` in state `d`. */
  function Run(d: Decoder, ts: seq<Token>, i: nat, fixed: bool): map<string, string>
    requires i <= |ts|
    decreases |ts| - i
  {
    if i == |ts| then Finish(d)
    else if ts[i] == Mark(End) then Finish(d.(files := Flush(d)))
    else Run(Step(d, ts[i], fixed), ts, i + 1, fixed)
  }

  /** The files decoded from a whole reply, as the source does it. */
  function Decode(response: string): map<string, string>
  {
    Run(Initial, Tokens(Split(response, '\n')), 0, false)
  }

  /** The files decoded from a whole reply by the evidently intended decoder. */
  function DecodeIntended(response: string): map<string, string>
  {
    Run(Initial, Tokens(Split(response, '\n')), 0, true)
  }

  /** `_parse_structured_response`. */
  method ParseStructuredResponse(response: string) returns (files: map<string, string>)
    ensures files == Decode(response)
  {
    files := map[];
    var section: Option<Section> := None;
    var content: seq<string> := [];
    var lines := Split(response, '\n');
    ghost var ts := Tokens(lines);
    var i := 0;
    while i < |lines|
      invariant 0 <= i <= |lines|
      invariant Run(Decoder(files, section, content), ts, i, false) == Decode(response)
    {
      var line := lines[i];
      var t := Strip(line);
      TokensAt(lines, i);
      ClassifyCases(line);
      var d := Decoder(files, section, content);
      if t == "=== JENKINSFILE ===" {
        RunMarker(d, ts, i, JenkinsfileSection);
        section := Some(JenkinsfileSection);
        content := [];
      } else if t == "=== PIPELINE_JOB_CONFIG ===" {
        RunMarker(d, ts, i, JobConfigSection);
        files := Flush(d);
        section := Some(JobConfigSection);
        content := [];
      } else if t == "=== REQUIRED_PLUGINS ===" {
        RunMarker(d, ts, i, PluginsSection);
        files := Flush(d);
        section := Some(PluginsSection);
        content := [];
      } else if t == "=== END ===" {
        files := Flush(d);
        break;
      } else {
        RunTextAt(d, ts, i, line);
        if section.Some? {
          content := content + [line];
        }
      }
      i := i + 1;
    }
    files := Finish(Decoder(files, section, content));
  }

  /** A section marker opens its section; all but the Jenkinsfile marker
      store the section that was open first. */
  lemma RunMarker(d: Decoder, ts: seq<Token>, i: nat, s: Section)
    requires i < |ts| && ts[i] == Mark(Begin(s))
    ensures Run(d, ts, i, false)
         == Run(Decoder(if s == JenkinsfileSection then d.files else Flush(d), Some(s), []), ts, i + 1, false)
  {
  }

  /** A line that is no marker is collected when a section is open. */
  lemma RunTextAt(d: Decoder, ts: seq<Token>, i: nat, line: string)
    requires i < |ts| && ts[i] == Text(line)
    ensures Run(d, ts, i, false) == Run(if d.section.Some? then d.(content := d.content + [line]) else d, ts, i + 1, false)
  {
  }

  /** The same at the head of a token sequence. */
  lemma RunText(d: Decoder, line: string, rest: seq<Token>, fixed: bool)
    requires d.section.Some?
    ensures Run(d, [Text(line)] + rest, 0, fixed) == Run(d.(content := d.content + [line]), rest, 0, fixed)
  {
    assert ([Text(line)] + rest)[0] == Text(line);
    RunShift(d.(content := d.content + [line]), [Text(line)], rest, 0, fixed);
  }

  /** The token of a line, by the tests the decoder makes on its trimmed text. */
  lemma ClassifyCases(line: string)
    ensures Strip(line) == "=== JENKINSFILE ===" ==> Classify(line) == Mark(Begin(JenkinsfileSection))
    ensures Strip(line) != "=== JENKINSFILE ===" && Strip(line) == "=== PIPELINE_JOB_CONFIG ===" ==>
              Classify(line) == Mark(Begin(JobConfigSection))
    ensures Strip(line) != "=== JENKINSFILE ===" && Strip(line) != "=== PIPELINE_JOB_CONFIG ===" &&
            Strip(line) == "=== REQUIRED_PLUGINS ===" ==>
              Classify(line) == Mark(Begin(PluginsSection))
    ensures Strip(line) != "=== JENKINSFILE ===" && Strip(line) != "=== PIPELINE_JOB_CONFIG ===" &&
            Strip(line) != "=== REQUIRED_PLUGINS ===" && Strip(line) == "=== END ===" ==>
              Classify(line) == Mark(End)
    ensures Strip(line) != "=== JENKINSFILE ===" && Strip(line) != "=== PIPELINE_JOB_CONFIG ===" &&
            Strip(line) != "=== REQUIRED_PLUGINS ===" && Strip(line) != "=== END ===" ==>
              Classify(line) == Text(line)
  {
  }

  /** Decoding keeps the files' keys among the section names and their
      values trimmed. */
  lemma {:induction false} RunSane(d: Decoder, ts: seq<Token>, i: nat, fixed: bool)
    requires i <= |ts| && SaneFiles(d.files)
    ensures SaneFiles(Run(d, ts, i, fixed))
    decreases |ts| - i
  {
    FlushSane(d);
    if i < |ts| && ts[i] != Mark(End) {
      RunSane(Step(d, ts[i], fixed), ts, i + 1, fixed);
    } else if i < |ts| {
      FlushSane(d.(files := Flush(d)));
    }
  }

  /** Every key of a decoded reply is one of the three file names, and every
      value is trimmed. */
  lemma DecodeSane(response: string, k: string)
    requires k in Decode(response)
    ensures k == "Jenkinsfile" || k == "pipeline_job_config.xml" || k == "required_plugins.xml"
    ensures NoOuterSpace(Decode(response)[k])
  {
    RunSane(Initial, Tokens(Split(response, '\n')), 0, false);
  }

  /** Text lines go to the open section, in order. */
  lemma {:induction false} RunTexts(d: Decoder, body: seq<string>, rest: seq<Token>, fixed: bool)
    requires d.section.Some?
    ensures Run(d, Texts(body) + rest, 0, fixed) == Run(d.(content := d.content + body), rest, 0, fixed)
    decreases |body|
  {
    if body == [] {
      assert Texts(body) + rest == rest;
      assert d.(content := d.content + body) == d;
    } else {
      var tail := Texts(body[1..]) + rest;
      Assoc([Text(body[0])], Texts(body[1..]), rest);
      var d1 := d.(content := d.content + [body[0]]);
      RunText(d, body[0], tail, fixed);
      RunTexts(d1, body[1..], rest, fixed);
      Assoc(d.content, [body[0]], body[1..]);
      HeadTail(body);
    }
  }

  /** Text lines before the first marker are ignored. */
  lemma {:induction false} RunPreamble(d: Decoder, ts: seq<Token>, i: nat, j: nat, fixed: bool)
    requires i <= j <= |ts| && d.section.None?
    requires forall k :: i <= k < j ==> ts[k].Text?
    ensures Run(d, ts, i, fixed) == Run(d, ts, j, fixed)
    decreases j - i
  {
    if i < j {
      RunPreamble(d, ts, i + 1, j, fixed);
    }
  }

  /** Running over the tail of a longer token sequence is running over the
      tail alone. */
  lemma {:induction false} RunShift(d: Decoder, pre: seq<Token>, rest: seq<Token>, i: nat, fixed: bool)
    requires i <= |rest|
    ensures Run(d, pre + rest, |pre| + i, fixed) == Run(d, rest, i, fixed)
    decreases |rest| - i
  {
    if i < |rest| {
      assert (pre + rest)[|pre| + i] == rest[i];
      if rest[i] != Mark(End) {
        RunShift(Step(d, rest[i], fixed), pre, rest, i + 1, fixed);
      }
    }
  }

  /** A reply whose first lines carry no marker decodes as if they were absent. */
  lemma PreambleIgnored(pre: seq<string>, rest: seq<string>, fixed: bool)
    requires MarkerFree(pre)
    ensures Run(Initial, Tokens(pre + rest), 0, fixed) == Run(Initial, Tokens(rest), 0, fixed)
  {
    TokensAppend(pre, rest);
    var ts := Tokens(pre) + Tokens(rest);
    TokensText(pre);
    forall k | 0 <= k < |pre| ensures ts[k].Text? {
      TextsAt(pre, k);
      assert ts[k] == Texts(pre)[k];
    }
    RunPreamble(Initial, ts, 0, |pre|, fixed);
    RunShift(Initial, Tokens(pre), Tokens(rest), 0, fixed);
  }

  /** Two token sequences that agree up to and including an end marker
      decode alike. */
  lemma {:induction false} RunUpToEnd(d: Decoder, a: seq<Token>, b: seq<Token>, i: nat, e: nat, fixed: bool)
    requires i <= e < |a| && e < |b| && a[..e + 1] == b[..e + 1]
    requires a[e] == Mark(End) && forall k :: i <= k < e ==> a[k] != Mark(End)
    ensures Run(d, a, i, fixed) == Run(d, b, i, fixed)
    decreases e - i
  {
    assert a[i] == a[..e + 1][i] == b[..e + 1][i] == b[i];
    if i < e {
      RunUpToEnd(Step(d, a[i], fixed), a, b, i + 1, e, fixed);
    }
  }

  /** No line is the end marker. */
  predicate NoEnd(lines: seq<string>) {
    forall i :: 0 <= i < |lines| ==> Classify(lines[i]) != Mark(End)
  }

  /** Nothing after the first end marker changes the result. */
  lemma IgnoresAfterEnd(pre: seq<string>, endLine: string, post: seq<string>, fixed: bool)
    requires NoEnd(pre) && Classify(endLine) == Mark(End)
    ensures Run(Initial, Tokens(pre + [endLine] + post), 0, fixed) == Run(Initial, Tokens(pre + [endLine]), 0, fixed)
  {
    var lines := pre + [endLine];
    TokensAppend(lines, post);
    var a, b := Tokens(lines) + Tokens(post), Tokens(lines);
    assert a[..|pre| + 1] == b[..|pre| + 1];
    TokensAt(lines, |pre|);
    assert lines[|pre|] == endLine;
    forall k | 0 <= k < |pre| ensures a[k] != Mark(End) {
      TokensAt(lines, k);
      assert a[k] == b[k] == Classify(lines[k]) && lines[k] == pre[k];
    }
    RunUpToEnd(Initial, a, b, 0, |pre|, fixed);
  }

  /** The entry a section with lines `body` contributes: none when it has no
      lines, else its lines joined and trimmed. */
  function Entry(s: Section, body: seq<string>): map<string, string> {
    if body == [] then map[] else map[Key(s) := Strip(Join(body, "\n"))]
  }

  /** Storing a section adds its entry to the files. */
  lemma FlushIsEntry(f: map<string, string>, s: Section, body: seq<string>)
    ensures Flush(Decoder(f, Some(s), body)) == f + Entry(s, body)
  {
    if body == [] {
      assert f + map[] == f;
    }
  }

  /** The files once section `s` opens in state `d`. */
  function Opened(d: Decoder, s: Section, fixed: bool): map<string, string> {
    if s == JenkinsfileSection && !fixed then d.files else Flush(d)
  }

  /** A section marker followed by text lines leaves that section open with
      exactly those lines collected. */
  lemma OpenSeq(d: Decoder, s: Section, body: seq<string>, rest: seq<Token>, fixed: bool)
    ensures Run(d, [Mark(Begin(s))] + (Texts(body) + rest), 0, fixed)
         == Run(Decoder(Opened(d, s, fixed), Some(s), body), rest, 0, fixed)
  {
    var tail := Texts(body) + rest;
    var d0 := Decoder(Opened(d, s, fixed), Some(s), []);
    assert ([Mark(Begin(s))] + tail)[0] == Mark(Begin(s));
    RunShift(d0, [Mark(Begin(s))], tail, 0, fixed);
    RunTexts(d0, body, rest, fixed);
    assert [] + body == body;
  }

  /** The end marker stores the open section and stops. */
  lemma CloseSeq(d: Decoder, rest: seq<Token>, fixed: bool)
    ensures Run(d, [Mark(End)] + rest, 0, fixed) == Flush(d)
  {
    assert ([Mark(End)] + rest)[0] == Mark(End);
  }

  /** A reply in the expected shape: the three markers in order, each followed
      by its content, then the end marker. */
  function ExpectedLines(j: seq<string>, c: seq<string>, p: seq<string>, trailer: seq<string>): seq<string> {
    [MarkerText(Begin(JenkinsfileSection))] + (j
    + ([MarkerText(Begin(JobConfigSection))] + (c
    + ([MarkerText(Begin(PluginsSection))] + (p
    + ([MarkerText(End)] + trailer))))))
  }

  lemma ExpectedTokens(j: seq<string>, c: seq<string>, p: seq<string>, trailer: seq<string>)
    requires MarkerFree(j) && MarkerFree(c) && MarkerFree(p)
    ensures Tokens(ExpectedLines(j, c, p, trailer))
         == [Mark(Begin(JenkinsfileSection))] + (Texts(j)
          + ([Mark(Begin(JobConfigSection))] + (Texts(c)
          + ([Mark(Begin(PluginsSection))] + (Texts(p)
          + ([Mark(End)] + Tokens(trailer)))))))
  {
    var l7 := [MarkerText(End)] + trailer;
    var l6 := p + l7;
    var l5 := [MarkerText(Begin(PluginsSection))] + l6;
    var l4 := c + l5;
    var l3 := [MarkerText(Begin(JobConfigSection))] + l4;
    var l2 := j + l3;
    TokensAppend([MarkerText(Begin(JenkinsfileSection))], l2);
    TokensAppend(j, l3);
    TokensAppend([MarkerText(Begin(JobConfigSection))], l4);
    TokensAppend(c, l5);
    TokensAppend([MarkerText(Begin(PluginsSection))], l6);
    TokensAppend(p, l7);
    TokensAppend([MarkerText(End)], trailer);
    TokensMarker(Begin(JenkinsfileSection));
    TokensMarker(Begin(JobConfigSection));
    TokensMarker(Begin(PluginsSection));
    TokensMarker(End);
    TokensText(j);
    TokensText(c);
    TokensText(p);
  }

  /** For a reply in the expected shape every section with content is stored
      under its own name, and a section with no lines gets no entry. */
  lemma DecodeExpected(j: seq<string>, c: seq<string>, p: seq<string>, trailer: seq<string>, fixed: bool)
    requires MarkerFree(j) && MarkerFree(c) && MarkerFree(p)
    ensures Run(Initial, Tokens(ExpectedLines(j, c, p, trailer)), 0, fixed)
         == Entry(JenkinsfileSection, j) + Entry(JobConfigSection, c) + Entry(PluginsSection, p)
  {
    ExpectedTokens(j, c, p, trailer);
    RunExpected(Tokens(ExpectedLines(j, c, p, trailer)), j, c, p, Tokens(trailer), fixed);
  }

  lemma RunExpected(ts: seq<Token>, j: seq<string>, c: seq<string>, p: seq<string>, rest: seq<Token>, fixed: bool)
    requires ts == [Mark(Begin(JenkinsfileSection))] + (Texts(j)
                 + ([Mark(Begin(JobConfigSection))] + (Texts(c)
                 + ([Mark(Begin(PluginsSection))] + (Texts(p)
                 + ([Mark(End)] + rest))))))
    ensures Run(Initial, ts, 0, fixed)
         == Entry(JenkinsfileSection, j) + Entry(JobConfigSection, c) + Entry(PluginsSection, p)
  {
    var r3 := [Mark(End)] + rest;
    var r2 := [Mark(Begin(PluginsSection))] + (Texts(p) + r3);
    var r1 := [Mark(Begin(JobConfigSection))] + (Texts(c) + r2);
    var d1 := Decoder(map[], Some(JenkinsfileSection), j);
    OpenSeq(Initial, JenkinsfileSection, j, r1, fixed);
    var d2 := Decoder(Flush(d1), Some(JobConfigSection), c);
    OpenSeq(d1, JobConfigSection, c, r2, fixed);
    var d3 := Decoder(Flush(d2), Some(PluginsSection), p);
    OpenSeq(d2, PluginsSection, p, r3, fixed);
    CloseSeq(d3, rest, fixed);
    FlushIsEntry(map[], JenkinsfileSection, j);
    FlushIsEntry(Flush(d1), JobConfigSection, c);
    FlushIsEntry(Flush(d2), PluginsSection, p);
    assert map[] + Entry(JenkinsfileSection, j) == Entry(JenkinsfileSection, j);
  }

  /** The same on the reply text, when no line holds a line break. */
  lemma DecodeExpectedText(j: seq<string>, c: seq<string>, p: seq<string>, trailer: seq<string>)
    requires MarkerFree(j) && MarkerFree(c) && MarkerFree(p)
    requires forall i :: 0 <= i < |ExpectedLines(j, c, p, trailer)| ==> '\n' !in ExpectedLines(j, c, p, trailer)[i]
    ensures Decode(Join(ExpectedLines(j, c, p, trailer), "\n"))
         == Entry(JenkinsfileSection, j) + Entry(JobConfigSection, c) + Entry(PluginsSection, p)
  {
    SplitJoin(ExpectedLines(j, c, p, trailer), '\n');
    DecodeExpected(j, c, p, trailer, false);
  }

  /** A reply that ends without the end marker: the last section opened is
      stored by the check after the scan, and only when it collected lines
      and its name is still free. */
  lemma TruncatedSection(d: Decoder, s: Section, body: seq<string>, fixed: bool)
    ensures Run(d, [Mark(Begin(s))] + Texts(body), 0, fixed)
         == if body != [] && Key(s) !in Opened(d, s, fixed)
            then Opened(d, s, fixed)[Key(s) := Strip(Join(body, "\n"))]
            else Opened(d, s, fixed)
  {
    assert Texts(body) + [] == Texts(body);
    OpenSeq(d, s, body, [], fixed);
  }

  /** A reply cut off before its end marker still stores the open section. */
  lemma DecodeTruncated(j: seq<string>, fixed: bool)
    requires MarkerFree(j) && j != []
    ensures Run(Initial, Tokens([MarkerText(Begin(JenkinsfileSection))] + j), 0, fixed)
         == map["Jenkinsfile" := Strip(Join(j, "\n"))]
  {
    TokensAppend([MarkerText(Begin(JenkinsfileSection))], j);
    TokensMarker(Begin(JenkinsfileSection));
    TokensText(j);
    RunTruncated(Tokens([MarkerText(Begin(JenkinsfileSection))] + j), j, fixed);
  }

  lemma RunTruncated(ts: seq<Token>, j: seq<string>, fixed: bool)
    requires ts == [Mark(Begin(JenkinsfileSection))] + Texts(j) && j != []
    ensures Run(Initial, ts, 0, fixed) == map["Jenkinsfile" := Strip(Join(j, "\n"))]
  {
    assert ts == [Mark(Begin(JenkinsfileSection))] + (Texts(j) + []);
    OpenSeq(Initial, JenkinsfileSection, j, [], fixed);
  }

  /** As written, the Jenkinsfile marker throws away the section that was
      open: a job configuration sent before the Jenkinsfile is lost. */
  lemma JenkinsfileMarkerDropsSection(c: seq<string>, j: seq<string>)
    requires MarkerFree(c) && MarkerFree(j) && c != [] && j != []
    ensures Run(Initial, Tokens([MarkerText(Begin(JobConfigSection))] + (c + ([MarkerText(Begin(JenkinsfileSection))] + (j + [MarkerText(End)])))), 0, false)
         == map["Jenkinsfile" := Strip(Join(j, "\n"))]
  {
    var l3 := j + [MarkerText(End)];
    var l2 := [MarkerText(Begin(JenkinsfileSection))] + l3;
    var l1 := c + l2;
    TokensAppend([MarkerText(Begin(JobConfigSection))], l1);
    TokensAppend(c, l2);
    TokensAppend([MarkerText(Begin(JenkinsfileSection))], l3);
    TokensAppend(j, [MarkerText(End)]);
    TokensMarker(Begin(JobConfigSection));
    TokensMarker(Begin(JenkinsfileSection));
    TokensMarker(End);
    TokensText(c);
    TokensText(j);
    RunDropsSection(Tokens([MarkerText(Begin(JobConfigSection))] + l1), c, j);
  }

  lemma RunDropsSection(ts: seq<Token>, c: seq<string>, j: seq<string>)
    requires ts == [Mark(Begin(JobConfigSection))] + (Texts(c) + ([Mark(Begin(JenkinsfileSection))] + (Texts(j) + [Mark(End)])))
    requires j != []
    ensures Run(Initial, ts, 0, false) == map["Jenkinsfile" := Strip(Join(j, "\n"))]
  {
    var r2 := [Mark(End)] + [];
    assert r2 == [Mark(End)];
    var r1 := [Mark(Begin(JenkinsfileSection))] + (Texts(j) + r2);
    var d1 := Decoder(map[], Some(JobConfigSection), c);
    OpenSeq(Initial, JobConfigSection, c, r1, false);
    OpenSeq(d1, JenkinsfileSection, j, r2, false);
    CloseSeq(Decoder(map[], Some(JenkinsfileSection), j), [], false);
  }

  /** A section marker other than the Jenkinsfile one stores the open
      section, replacing an earlier entry under the same name. */
  lemma RepeatedSectionOverwrites(ts: seq<Token>, c1: seq<string>, c2: seq<string>, fixed: bool)
    requires ts == [Mark(Begin(JobConfigSection))] + (Texts(c1) + ([Mark(Begin(JobConfigSection))] + (Texts(c2) + [Mark(End)])))
    requires c2 != []
    ensures Run(Initial, ts, 0, fixed) == map["pipeline_job_config.xml" := Strip(Join(c2, "\n"))]
  {
    var r2 := [Mark(End)] + [];
    assert r2 == [Mark(End)];
    var r1 := [Mark(Begin(JobConfigSection))] + (Texts(c2) + r2);
    var d1 := Decoder(map[], Some(JobConfigSection), c1);
    OpenSeq(Initial, JobConfigSection, c1, r1, fixed);
    var d2 := Decoder(Flush(d1), Some(JobConfigSection), c2);
    OpenSeq(d1, JobConfigSection, c2, r2, fixed);
    CloseSeq(d2, [], fixed);
    FlushIsEntry(map[], JobConfigSection, c1);
    FlushIsEntry(Flush(d1), JobConfigSection, c2);
    EntryReplaces(map[], JobConfigSection, c1, c2);
  }

  /** A second entry for the same section replaces the first. */
  lemma EntryReplaces(f: map<string, string>, s: Section, b1: seq<string>, b2: seq<string>)
    requires b2 != []
    ensures f + Entry(s, b1) + Entry(s, b2) == f + Entry(s, b2)
  {
  }

  /** Without an end marker the open section is stored only when its name is
      still free: in a cut-off reply that repeats a section, the first copy
      stays and the second is ignored. */
  lemma TruncatedKeepsStored(ts: seq<Token>, c1: seq<string>, c2: seq<string>, fixed: bool)
    requires ts == [Mark(Begin(JobConfigSection))] + (Texts(c1) + ([Mark(Begin(JobConfigSection))] + (Texts(c2) + [])))
    requires c1 != []
    ensures Run(Initial, ts, 0, fixed) == map["pipeline_job_config.xml" := Strip(Join(c1, "\n"))]
  {
    var r1 := [Mark(Begin(JobConfigSection))] + (Texts(c2) + []);
    var d1 := Decoder(map[], Some(JobConfigSection), c1);
    OpenSeq(Initial, JobConfigSection, c1, r1, fixed);
    OpenSeq(d1, JobConfigSection, c2, [], fixed);
    FlushIsEntry(map[], JobConfigSection, c1);
  }

  /** A reply as a run of sections, each a marker and its lines. */
  function BlockLines(blocks: seq<(Section, seq<string>)>): seq<string> {
    if blocks == [] then [] else [MarkerText(Begin(blocks[0].0))] + (blocks[0].1 + BlockLines(blocks[1..]))
  }

  /** The same run of sections, as tokens. */
  function BlockTokens(blocks: seq<(Section, seq<string>)>): seq<Token> {
    if blocks == [] then [] else [Mark(Begin(blocks[0].0))] + (Texts(blocks[0].1) + BlockTokens(blocks[1..]))
  }

  predicate BlocksMarkerFree(blocks: seq<(Section, seq<string>)>) {
    forall i :: 0 <= i < |blocks| ==> MarkerFree(blocks[i].1)
  }

  lemma BlocksMarkerFreeTail(blocks: seq<(Section, seq<string>)>)
    requires blocks != [] && BlocksMarkerFree(blocks)
    ensures MarkerFree(blocks[0].1) && BlocksMarkerFree(blocks[1..])
  {
    forall n | 0 <= n < |blocks[1..]| ensures MarkerFree(blocks[1..][n].1) {
      assert blocks[1..][n] == blocks[n + 1];
    }
  }

  lemma {:induction false} TokensBlocks(blocks: seq<(Section, seq<string>)>)
    requires BlocksMarkerFree(blocks)
    ensures Tokens(BlockLines(blocks)) == BlockTokens(blocks)
  {
    if blocks != [] {
      BlocksMarkerFreeTail(blocks);
      TokensAppend([MarkerText(Begin(blocks[0].0))], blocks[0].1 + BlockLines(blocks[1..]));
      TokensAppend(blocks[0].1, BlockLines(blocks[1..]));
      TokensMarker(Begin(blocks[0].0));
      TokensText(blocks[0].1);
      TokensBlocks(blocks[1..]);
    }
  }

  /** The files obtained by storing each section with content in turn. */
  function StoreAll(f: map<string, string>, blocks: seq<(Section, seq<string>)>): map<string, string>
    decreases |blocks|
  {
    if blocks == [] then f else StoreAll(f + Entry(blocks[0].0, blocks[0].1), blocks[1..])
  }

  /** With every marker storing the open section, the sections that follow
      are stored one after the other. */
  lemma {:induction false} RunBlocks(d: Decoder, blocks: seq<(Section, seq<string>)>, rest: seq<Token>)
    ensures Run(d, BlockTokens(blocks) + ([Mark(End)] + rest), 0, true) == StoreAll(Flush(d), blocks)
    decreases |blocks|
  {
    if blocks == [] {
      assert BlockTokens(blocks) + ([Mark(End)] + rest) == [Mark(End)] + rest;
      CloseSeq(d, rest, true);
    } else {
      var s, body := blocks[0].0, blocks[0].1;
      var after := BlockTokens(blocks[1..]) + ([Mark(End)] + rest);
      assert BlockTokens(blocks) + ([Mark(End)] + rest) == [Mark(Begin(s))] + (Texts(body) + after);
      OpenSeq(d, s, body, after, true);
      RunBlocks(Decoder(Flush(d), Some(s), body), blocks[1..], rest);
      FlushIsEntry(Flush(d), s, body);
    }
  }

  /** With every marker storing the open section, a reply made of sections in
      any order decodes to the sections stored one after the other. */
  lemma IntendedDecodeBlocks(blocks: seq<(Section, seq<string>)>, trailer: seq<string>)
    requires BlocksMarkerFree(blocks)
    ensures Run(Initial, Tokens(BlockLines(blocks) + ([MarkerText(End)] + trailer)), 0, true) == StoreAll(map[], blocks)
  {
    TokensAppend(BlockLines(blocks), [MarkerText(End)] + trailer);
    TokensAppend([MarkerText(End)], trailer);
    TokensMarker(End);
    TokensBlocks(blocks);
    RunBlocks(Initial, blocks, Tokens(trailer));
  }

  /** When each section occurs once, the order of the sections does not matter:
      a section's file holds its own lines, whatever came before or after. */
  lemma {:induction false} StoreAllDistinct(f: map<string, string>, blocks: seq<(Section, seq<string>)>, i: nat)
    requires i < |blocks|
    requires forall a, b :: 0 <= a < b < |blocks| ==> blocks[a].0 != blocks[b].0
    requires blocks[i].1 != []
    ensures Key(blocks[i].0) in StoreAll(f, blocks)
    ensures StoreAll(f, blocks)[Key(blocks[i].0)] == Strip(Join(blocks[i].1, "\n"))
    decreases |blocks|
  {
    var f' := f + Entry(blocks[0].0, blocks[0].1);
    if i == 0 {
      StoreAllKeeps(f', blocks[1..], blocks[0].0);
    } else {
      StoreAllDistinct(f', blocks[1..], i - 1);
    }
  }

  /** Sections for other keys leave an entry alone. */
  lemma {:induction false} StoreAllKeeps(f: map<string, string>, blocks: seq<(Section, seq<string>)>, s: Section)
    requires Key(s) in f
    requires forall a :: 0 <= a < |blocks| ==> blocks[a].0 != s
    ensures Key(s) in StoreAll(f, blocks) && StoreAll(f, blocks)[Key(s)] == f[Key(s)]
    decreases |blocks|
  {
    if blocks != [] {
      assert Key(blocks[0].0) != Key(s);
      StoreAllKeeps(f + Entry(blocks[0].0, blocks[0].1), blocks[1..], s);
    }
  }

  // ---------------------------------------------------------------------------
  // The Jenkins context text (`_create_jenkins_context_info`)
  // ---------------------------------------------------------------------------

  const NotAccessibleText: string :=
    "Jenkins Context: Not accessible - generate standard plugin list\nNote: Include common plugin versions and standard dependencies"

  /** How many plugins of a category are listed by name. */
  const ListLimit: nat := 10

  /** `name(version)`, the version taken from the installed-plugin table. */
  function Item(name: string, installed: seq<(string, string)>): string {
    name + "(" + Get(installed, name).GetOr("unknown") + ")"
  }

  function Items(names: seq<string>, installed: seq<(string, string)>): (items: seq<string>)
    ensures |items| == |names|
  {
    if names == [] then [] else Items(names[..|names| - 1], installed) + [Item(names[|names| - 1], installed)]
  }

  /** The line of one non-empty category: its title-cased name, the first ten
      plugins, and a count of the others. */
  function CategoryLine(category: string, names: seq<string>, installed: seq<(string, string)>): string {
    var shown := if |names| > ListLimit then names[..ListLimit] else names;
    "\n" + Title(category) + ": " + Join(Items(shown, installed), ", ")
    + (if |names| > ListLimit then " ... and " + NatToString(|names| - ListLimit) + " more" else "")
  }

  function CategoryLines(cats: seq<(string, seq<string>)>, installed: seq<(string, string)>): string {
    if cats == [] then ""
    else
      var n := |cats| - 1;
      CategoryLines(cats[..n], installed) + (if cats[n].1 == [] then "" else CategoryLine(cats[n].0, cats[n].1, installed))
  }

  function Header(ctx: JenkinsContext): string {
    "Jenkins Context: \nJenkins Version: " + ctx.versionInfo.jenkinsVersion.GetOr("Unknown")
    + "\nSystem Info: " + ctx.versionInfo.systemInfo.GetOr("Unknown")
    + "\n\nALREADY INSTALLED PLUGINS (" + NatToString(|ctx.installedPlugins|) + " total):"
  }

  const FooterWarning: string :=
    "\n\nIMPORTANT: Do NOT include any of the above plugins in required_plugins.xml"
    + "\nOnly suggest NEW plugins that are actually needed for the pipeline but not already installed."

  const CompatibleWith: string := "\nUse appropriate versions compatible with Jenkins "

  function Footer(ctx: JenkinsContext): string {
    FooterWarning + CompatibleWith + ctx.versionInfo.jenkinsVersion.GetOr("LTS")
  }

  /** The whole context text. */
  function ContextInfo(ctx: JenkinsContext): string {
    if !ctx.accessible then NotAccessibleText
    else Header(ctx) + CategoryLines(ctx.categories, ctx.installedPlugins) + Footer(ctx)
  }

  /** `_create_jenkins_context_info`. */
  method CreateJenkinsContextInfo(ctx: JenkinsContext) returns (text: string)
    requires DistinctKeys(ctx.installedPlugins)
    ensures text == ContextInfo(ctx)
  {
    if !ctx.accessible {
      return NotAccessibleText;
    }
    var body := CategoriesText(ctx.categories, ctx.installedPlugins);
    text := Header(ctx) + body + Footer(ctx);
  }

  /** The loop of `_create_jenkins_context_info` over the categories: one line
      per non-empty category, in order. */
  method CategoriesText(cats: seq<(string, seq<string>)>, installed: seq<(string, string)>) returns (body: string)
    ensures body == CategoryLines(cats, installed)
  {
    body := "";
    var i := 0;
    while i < |cats|
      invariant 0 <= i <= |cats|
      invariant body == CategoryLines(cats[..i], installed)
    {
      CategoryLinesSnoc(cats, i, installed);
      var (category, plugins) := cats[i];
      if plugins != [] {
        var shown := if |plugins| > ListLimit then plugins[..ListLimit] else plugins;
        var list := ItemList(shown, installed);
        var line := "\n" + Title(category) + ": " + Join(list, ", ");
        if |plugins| > ListLimit {
          line := line + " ... and " + NatToString(|plugins| - ListLimit) + " more";
        } else {
          assert line + "" == line;
        }
        assert line == CategoryLine(category, plugins, installed);
        body := body + line;
      } else {
        assert body + "" == body;
      }
      i := i + 1;
    }
    assert cats[..|cats|] == cats;
  }

  lemma CategoryLinesSnoc(cats: seq<(string, seq<string>)>, i: nat, installed: seq<(string, string)>)
    requires i < |cats|
    ensures CategoryLines(cats[..i + 1], installed)
         == CategoryLines(cats[..i], installed) + (if cats[i].1 == [] then "" else CategoryLine(cats[i].0, cats[i].1, installed))
  {
    assert cats[..i + 1][..i] == cats[..i];
  }

  /** The `name(version)` items of the listed plugins, in order. */
  method ItemList(shown: seq<string>, installed: seq<(string, string)>) returns (list: seq<string>)
    ensures list == Items(shown, installed)
  {
    list := [];
    var j := 0;
    while j < |shown|
      invariant 0 <= j <= |shown|
      invariant list == Items(shown[..j], installed)
    {
      assert shown[..j + 1][..j] == shown[..j];
      list := list + [Item(shown[j], installed)];
      j := j + 1;
    }
    assert shown[..|shown|] == shown;
  }

  /** The text starts with the header's first line. */
  lemma ContextInfoStart(ctx: JenkinsContext)
    requires ctx.accessible
    ensures StartsWith(ContextInfo(ctx), "Jenkins Context: \nJenkins Version: ")
  {
    var prefix := "Jenkins Context: \nJenkins Version: ";
    var h := Header(ctx);
    var body := CategoryLines(ctx.categories, ctx.installedPlugins);
    HeaderStart(ctx);
    StartsWithAppend(h, prefix, body);
    StartsWithAppend(h + body, prefix, Footer(ctx));
  }

  /** The text ends by naming the Jenkins version to stay compatible with
      ("LTS" when it is unknown). */
  lemma ContextInfoEnd(ctx: JenkinsContext)
    requires ctx.accessible
    ensures EndsWith(ContextInfo(ctx), CompatibleWith + ctx.versionInfo.jenkinsVersion.GetOr("LTS"))
  {
    var v := ctx.versionInfo.jenkinsVersion.GetOr("LTS");
    EndsWithTail(FooterWarning, CompatibleWith, v);
    EndsWithPrepend(Header(ctx) + CategoryLines(ctx.categories, ctx.installedPlugins), Footer(ctx), CompatibleWith + v);
  }

  lemma HeaderStart(ctx: JenkinsContext)
    ensures StartsWith(Header(ctx), "Jenkins Context: \nJenkins Version: ")
  {
    var prefix := "Jenkins Context: \nJenkins Version: ";
    var h1 := prefix + ctx.versionInfo.jenkinsVersion.GetOr("Unknown");
    var h2 := h1 + "\nSystem Info: ";
    var h3 := h2 + ctx.versionInfo.systemInfo.GetOr("Unknown");
    var h4 := h3 + "\n\nALREADY INSTALLED PLUGINS (";
    var h5 := h4 + NatToString(|ctx.installedPlugins|);
    assert h1[..|prefix|] == prefix;
    StartsWithAppend(h1, prefix, "\nSystem Info: ");
    StartsWithAppend(h2, prefix, ctx.versionInfo.systemInfo.GetOr("Unknown"));
    StartsWithAppend(h3, prefix, "\n\nALREADY INSTALLED PLUGINS (");
    StartsWithAppend(h4, prefix, NatToString(|ctx.installedPlugins|));
    StartsWithAppend(h5, prefix, " total):");
  }

  /** Categories with no plugins add nothing: the text is that of the
      non-empty categories alone. */
  function NonEmpty(cats: seq<(string, seq<string>)>): (r: seq<(string, seq<string>)>)
    ensures forall i :: 0 <= i < |r| ==> r[i].1 != []
  {
    if cats == [] then []
    else
      var n := |cats| - 1;
      NonEmpty(cats[..n]) + (if cats[n].1 == [] then [] else [cats[n]])
  }

  lemma {:induction false} EmptyCategoriesSkipped(cats: seq<(string, seq<string>)>, installed: seq<(string, string)>)
    ensures CategoryLines(cats, installed) == CategoryLines(NonEmpty(cats), installed)
  {
    if cats != [] {
      var n := |cats| - 1;
      EmptyCategoriesSkipped(cats[..n], installed);
      if cats[n].1 != [] {
        var r := NonEmpty(cats[..n]) + [cats[n]];
        assert r[..|r| - 1] == NonEmpty(cats[..n]);
      } else {
        assert NonEmpty(cats[..n]) + [] == NonEmpty(cats[..n]);
      }
    }
  }

  /** Item `k` names plugin `k` with its installed version. */
  lemma {:induction false} ItemsAt(names: seq<string>, installed: seq<(string, string)>, k: nat)
    requires k < |names|
    ensures Items(names, installed)[k] == Item(names[k], installed)
  {
    var n := |names| - 1;
    if k < n {
      ItemsAt(names[..n], installed, k);
    }
  }

  /** Every item ends with the closing parenthesis of its version. */
  lemma ItemEnds(name: string, installed: seq<(string, string)>)
    ensures Item(name, installed) != [] && Item(name, installed)[|Item(name, installed)| - 1] == ')'
  {
  }

  /** The line of a non-empty category lists the first ten of its plugins at
      most, as `name(version)` items, and counts the others: it ends with
      ` ... and N more` when there are more than ten, and with the last item's
      closing parenthesis exactly when there are not. */
  lemma CategoryLineBound(category: string, names: seq<string>, installed: seq<(string, string)>)
    requires names != []
    ensures var k := if |names| > ListLimit then ListLimit else |names|;
            && |Items(names[..k], installed)| == k
            && StartsWith(CategoryLine(category, names, installed),
                          "\n" + Title(category) + ": " + Join(Items(names[..k], installed), ", "))
    ensures |names| > ListLimit ==>
              EndsWith(CategoryLine(category, names, installed), " ... and " + NatToString(|names| - ListLimit) + " more")
    ensures var line := CategoryLine(category, names, installed);
            line != [] && (line[|line| - 1] == ')' <==> |names| <= ListLimit)
  {
    var k := if |names| > ListLimit then ListLimit else |names|;
    var shown := names[..k];
    assert shown == if |names| > ListLimit then names[..ListLimit] else names;
    var items := Items(shown, installed);
    var head := "\n" + Title(category) + ": " + Join(items, ", ");
    var line := CategoryLine(category, names, installed);
    if |names| > ListLimit {
      var more := " ... and " + NatToString(|names| - ListLimit) + " more";
      assert line == head + more;
      assert line[..|head|] == head;
      assert line[|line| - |more|..] == more;
    } else {
      assert line == head + "" == head;
      ItemsAt(shown, installed, k - 1);
      ItemEnds(shown[k - 1], installed);
      JoinEnds(items, ", ");
      EndsWithPrepend("\n" + Title(category) + ": ", Join(items, ", "), items[k - 1]);
      assert line[|line| - 1] == line[|line| - |items[k - 1]|..][|items[k - 1]| - 1];
    }
  }

  /** Only the first ten plugins of a category are named: two categories that
      agree on their first ten plugins and on their size read the same. */
  lemma CategoryLineNamesTen(category: string, a: seq<string>, b: seq<string>, installed: seq<(string, string)>)
    requires |a| == |b| && |a| > ListLimit && a[..ListLimit] == b[..ListLimit]
    ensures CategoryLine(category, a, installed) == CategoryLine(category, b, installed)
  {
  }
}
