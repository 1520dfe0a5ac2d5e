/** The browser editor's tab state: the `files` dictionary (file name to
    the text last stored for it), the current file, the text in the editor
    buffer, and the syntax mode picked from the file's extension. Loading
    and saving talk to the server; their replies are inputs. */
module Editor {
  import opened Common

  /** A value held in `files`: JavaScript's `null`, `undefined`, or a string. */
  datatype JsText = Null | Undefined | Text(s: string)

  /** `files[name]`: a missing key reads as `undefined`. */
  function Lookup(files: map<string, JsText>, name: string): (r: JsText)
    ensures name !in files ==> r == Undefined
    ensures name in files ==> r == files[name]
  {
    if name in files then files[name] else Undefined
  }

  /** `value || ''` */
  function OrEmpty(v: JsText): (r: string)
    ensures v.Text? ==> r == v.s
    ensures !v.Text? ==> r == ""
  {
    if v.Text? then v.s else ""
  }

  /** `${value}` in a template literal. */
  function Render(v: JsText): string {
    match v
    case Null => "null"
    case Undefined => "undefined"
    case Text(s) => s
  }

  // ----- fileExtToMode -----

  /** `fileExtToMode` */
  const ModeTable: map<string, string> := map["html" := "html", "css" := "css", "js" := "javascript"]

  /** `name.split('.').pop()`: the text after the last `.`, or the whole name
      when it has none. */
  function LastSegment(name: string): string
  {
    if name == [] then ""
    else if name[|name| - 1] == '.' then ""
    else LastSegment(name[..|name| - 1]) + [name[|name| - 1]]
  }

  /** The last segment is a suffix of the name with no `.` in it, and a `.`
      comes right before it unless it is the whole name. */
  lemma {:induction false} LastSegmentIsSuffix(name: string)
    ensures var r := LastSegment(name);
            && '.' !in r
            && |r| <= |name| && name[|name| - |r|..] == r
            && (|r| < |name| ==> name[|name| - |r| - 1] == '.')
  {
    if name != [] && name[|name| - 1] != '.' {
      var init := name[..|name| - 1];
      var c := name[|name| - 1];
      LastSegmentIsSuffix(init);
      var r0 := LastSegment(init);
      var r := r0 + [c];
      assert LastSegment(name) == r;
      assert '.' !in r by {
        assert forall i | 0 <= i < |r| :: r[i] == if i < |r0| then r0[i] else c;
      }
      assert name[|name| - |r|..] == init[|init| - |r0|..] + [c];
      if |r| < |name| {
        assert name[|name| - |r| - 1] == init[|init| - |r0| - 1];
      }
    }
  }

  /** The segment after a final `.` is whatever follows it, if it holds no
      `.` itself. */
  lemma {:induction false} LastSegmentAfterDot(stem: string, ext: string)
    requires '.' !in ext
    ensures LastSegment(stem + "." + ext) == ext
  {
    if ext == [] {
      assert (stem + "." + ext)[|stem + "." + ext| - 1] == '.';
    } else {
      var init := ext[..|ext| - 1];
      LastSegmentAfterDot(stem, init);
      assert (stem + "." + ext)[..|stem + "." + ext| - 1] == stem + "." + init;
      assert init + [ext[|ext| - 1]] == ext;
    }
  }

  /** `fileExtToMode[ext]`: `None` (`undefined`) for an extension the table
      does not hold. */
  function ModeFor(name: string): (r: Option<string>)
    ensures r.Some? <==> LastSegment(name) in ModeTable
    ensures r.Some? ==> r.value == ModeTable[LastSegment(name)]
  {
    var ext := LastSegment(name);
    if ext in ModeTable then Some(ModeTable[ext]) else None
  }

  /** The mode of a name is the table's entry for what follows its last
      `.`, whatever comes before it. */
  lemma ModeOfExtension(stem: string, ext: string)
    requires '.' !in ext
    ensures ModeFor(stem + "." + ext) == if ext in ModeTable then Some(ModeTable[ext]) else None
  {
    LastSegmentAfterDot(stem, ext);
  }

  /** The three files of a site open in html, css and javascript mode. */
  lemma ModesOfSiteFiles()
    ensures ModeFor(IndexFile) == Some("html")
    ensures ModeFor(StylesFile) == Some("css")
    ensures ModeFor(ScriptFile) == Some("javascript")
  {
    ModeOfExtension("index", "html");
    assert IndexFile == "index" + "." + "html";
    ModeOfExtension("styles", "css");
    assert StylesFile == "styles" + "." + "css";
    ModeOfExtension("script", "js");
    assert ScriptFile == "script" + "." + "js";
  }

  // ----- the tab state -----

  datatype Tabs = Tabs(files: map<string, JsText>, current: string, buffer: string, mode: Option<string>)

  const IndexFile := "index.html"
  const StylesFile := "styles.css"
  const ScriptFile := "script.js"

  /** The state when the page loads: three known files, none loaded yet,
      index.html current in html mode, and in the buffer the text the page's
      `<textarea>` holds when `CodeMirror.fromTextArea` takes it over. */
  function Initial(textarea: string): (t: Tabs)
    ensures t.files.Keys == {IndexFile, StylesFile, ScriptFile}
    ensures forall name | name in t.files :: t.files[name] == Null
    ensures t.current == IndexFile && t.buffer == textarea && t.mode == Some("html")
  {
    Tabs(map[IndexFile := Null, StylesFile := Null, ScriptFile := Null], IndexFile, textarea, Some("html"))
  }

  /** `switchFile(name)`: the buffer is stored under the current file, then
      `name` becomes current with its stored text (or `''`) in the buffer and
      the mode of its extension. */
  function Switch(t: Tabs, name: string): (r: Tabs)
    ensures r.current == name && r.mode == ModeFor(name)
    ensures r.files == t.files[t.current := Text(t.buffer)]
  {
    var files := t.files[t.current := Text(t.buffer)];
    Tabs(files, name, OrEmpty(Lookup(files, name)), ModeFor(name))
  }

  /** The buffer after a switch holds the new file's stored text, or `''`
      when it is `null`, `undefined` or empty. */
  lemma SwitchLoadsBuffer(t: Tabs, name: string)
    ensures name == t.current ==> Switch(t, name).buffer == t.buffer
    ensures name != t.current && name in t.files && t.files[name].Text?
            ==> Switch(t, name).buffer == t.files[name].s
    ensures name != t.current && !(name in t.files && t.files[name].Text?)
            ==> Switch(t, name).buffer == ""
  {
  }

  /** A switch changes no stored file other than the one that was current. */
  lemma SwitchKeepsOtherFiles(t: Tabs, name: string, other: string)
    requires other != t.current
    ensures other in Switch(t, name).files <==> other in t.files
    ensures other in t.files ==> Switch(t, name).files[other] == t.files[other]
  {
  }

  /** Switching away and back restores the buffer and the current file, and
      leaves the first file's text stored. */
  lemma SwitchRoundTrip(t: Tabs, name: string)
    ensures var back := Switch(Switch(t, name), t.current);
            && back.current == t.current && back.buffer == t.buffer
            && back.files[t.current] == Text(t.buffer)
  {
  }

  /** Switching to the current file keeps the buffer and the mode of the
      current file, and stores the buffer. */
  lemma SwitchToCurrent(t: Tabs)
    ensures Switch(t, t.current) == t.(files := t.files[t.current := Text(t.buffer)], mode := ModeFor(t.current))
  {
  }

  // ----- the preview document -----

  // the template's text between the three slots
  const Prologue := "\n        <!DOCTYPE html>\n        <html>\n        <head>\n            "
  const HeadToBody := "\n        </head>\n        "
  const Indent := "\n            "
  const Epilogue := "\n        </body>\n        </html>\n    "

  /** The template with the three rendered files in their slots. */
  function Document(css: string, html: string, js: string): string {
    Prologue + "<style>" + css + "</style>" + HeadToBody + "<body>" + Indent + html
    + Indent + "<script>" + js + "</script>" + Epilogue
  }

  /** The document `updatePreview` writes into the preview frame. */
  function PreviewDocument(files: map<string, JsText>): string {
    Document(Render(Lookup(files, StylesFile)), Render(Lookup(files, IndexFile)), Render(Lookup(files, ScriptFile)))
  }

  /** The styles sit directly inside `<style>…</style>` in the head, the
      HTML follows `<body>` in the body, and the script sits inside
      `<script>…</script>` after the HTML. */
  lemma DocumentLayout(css: string, html: string, js: string)
    ensures var doc := Document(css, html, js);
            var cssAt := |Prologue| + |"<style>"|;
            var bodyAt := cssAt + |css| + |"</style>"| + |HeadToBody|;
            var htmlAt := bodyAt + |"<body>"| + |Indent|;
            var jsAt := htmlAt + |html| + |Indent| + |"<script>"|;
            && |doc| == jsAt + |js| + |"</script>"| + |Epilogue|
            && doc[cssAt - |"<style>"|..cssAt] == "<style>" && doc[cssAt..cssAt + |css|] == css
            && doc[cssAt + |css|..cssAt + |css| + |"</style>"|] == "</style>"
            && doc[bodyAt..bodyAt + |"<body>"|] == "<body>" && doc[htmlAt..htmlAt + |html|] == html
            && doc[jsAt - |"<script>"|..jsAt] == "<script>" && doc[jsAt..jsAt + |js|] == js
            && doc[jsAt + |js|..jsAt + |js| + |"</script>"|] == "</script>"
  {
    var p1 := Prologue + "<style>";
    var p2 := p1 + css;
    var p3 := p2 + "</style>";
    var p4 := p3 + HeadToBody;
    var p5 := p4 + "<body>";
    var p6 := p5 + Indent;
    var p7 := p6 + html;
    var p8 := p7 + Indent;
    var p9 := p8 + "<script>";
    var p10 := p9 + js;
    var p11 := p10 + "</script>";
    var doc := p11 + Epilogue;
    PrefixOf(doc, p11, Epilogue);
    PrefixOf(doc, p10, "</script>");
    PrefixOf(doc, p9, js);
    PrefixOf(doc, p8, "<script>");
    PrefixOf(doc, p7, Indent);
    PrefixOf(doc, p6, html);
    PrefixOf(doc, p5, Indent);
    PrefixOf(doc, p4, "<body>");
    PrefixOf(doc, p3, HeadToBody);
    PrefixOf(doc, p2, "</style>");
    PrefixOf(doc, p1, css);
    PrefixOf(doc, Prologue, "<style>");
  }

  // ----- loading and the page's start -----

  /** What a `fetch` of a file answered: a failure (not ok, or a network or
      JSON error), or the `content` field of the reply. */
  datatype LoadReply = LoadFailed | Loaded(content: JsText)

  /** What `files[name]` holds after a load into a fresh page. */
  function Got(reply: LoadReply): JsText {
    if reply.Loaded? then reply.content else Null
  }

  /** `loadFile(name)`: a failed load changes nothing; a successful one sets
      that one entry of `files`. */
  function Load(t: Tabs, name: string, reply: LoadReply): (r: Tabs)
    ensures r.current == t.current && r.buffer == t.buffer && r.mode == t.mode
    ensures r.files.Keys == t.files.Keys + (if reply.Loaded? then {name} else {})
    ensures forall other | other != name && other in t.files :: r.files[other] == t.files[other]
    ensures reply.Loaded? ==> r.files[name] == reply.content
    ensures reply.LoadFailed? ==> r.files == t.files
  {
    if reply.Loaded? then t.(files := t.files[name := reply.content]) else t
  }

  /** Loads of two different files give the same state in either order, so
      the three concurrent loads at start do not race with each other. */
  lemma LoadsCommute(t: Tabs, a: string, ra: LoadReply, b: string, rb: LoadReply)
    requires a != b
    ensures Load(Load(t, a, ra), b, rb) == Load(Load(t, b, rb), a, ra)
  {
    if ra.Loaded? && rb.Loaded? {
      assert t.files[a := ra.content][b := rb.content] == t.files[b := rb.content][a := ra.content];
    }
  }

  /** The page's start: the three loads settle, then `switchFile('index.html')`
      runs before the first `updatePreview()`. */
  function Startup(textarea: string, index: LoadReply, styles: LoadReply, script: LoadReply): Tabs {
    Switch(Load(Load(Load(Initial(textarea), IndexFile, index), StylesFile, styles), ScriptFile, script), IndexFile)
  }

  /** After the start, index.html holds the editor's text and not what its
      load returned, the buffer and mode are unchanged, and the first preview
      shows the loaded styles and script (`null` where a load failed) around
      that text. */
  lemma StartupPreview(textarea: string, index: LoadReply, styles: LoadReply, script: LoadReply)
    ensures var t := Startup(textarea, index, styles, script);
            && t.current == IndexFile && t.buffer == textarea && t.mode == Some("html")
            && t.files == map[IndexFile := Text(textarea), StylesFile := Got(styles), ScriptFile := Got(script)]
            && PreviewDocument(t.files) == Document(Render(Got(styles)), textarea, Render(Got(script)))
  {
    ModesOfSiteFiles();
    var t := Startup(textarea, index, styles, script);
    assert t.files == map[IndexFile := Text(textarea), StylesFile := Got(styles), ScriptFile := Got(script)];
  }

  /** Against a server without the file routes every load fails, so the
      first preview shows `null` for the styles and the script. */
  lemma PreviewWithoutFileRoutes(textarea: string)
    ensures PreviewDocument(Startup(textarea, LoadFailed, LoadFailed, LoadFailed).files)
            == Document("null", textarea, "null")
  {
    StartupPreview(textarea, LoadFailed, LoadFailed, LoadFailed);
  }

  /** When `pre + part` starts `doc`, so does `pre`, and `part` follows it. */
  lemma PrefixOf(doc: string, pre: string, part: string)
    requires |pre + part| <= |doc| && doc[..|pre + part|] == pre + part
    ensures doc[..|pre|] == pre
    ensures doc[|pre|..|pre| + |part|] == part
  {
    assert doc[..|pre|] == (pre + part)[..|pre|];
    assert doc[|pre|..|pre| + |part|] == (pre + part)[|pre|..];
  }

  // ----- the page's state -----

  /** The notification a save shows. */
  datatype Notice = Saved(file: string) | SaveFailed(file: string)

  /** The module-level state of the editor page. */
  class EditorPage {
    var files: map<string, JsText>
    var currentFile: string
    var buffer: string
    var mode: Option<string>

    function State(): Tabs
      reads this
    {
      Tabs(files, currentFile, buffer, mode)
    }

    constructor (textarea: string)
      ensures State() == Initial(textarea)
    {
      files := map[IndexFile := Null, StylesFile := Null, ScriptFile := Null];
      currentFile := IndexFile;
      buffer := textarea;
      mode := Some("html");
    }

    /** `switchFile` */
    method SwitchFile(name: string)
      modifies this
      ensures State() == Switch(old(State()), name)
    {
      ghost var before := State();
      files := files[currentFile := Text(buffer)];
      mode := ModeFor(name);
      currentFile := name;
      buffer := OrEmpty(Lookup(files, name));
      assert files == before.files[before.current := Text(before.buffer)];
    }

    /** `saveCurrentFile`: the buffer is stored under the current file before
        the request is made, so it is stored whatever the server answers. */
    method SaveCurrentFile(serverOk: bool) returns (notice: Notice)
      modifies this`files
      ensures files == old(files)[currentFile := Text(buffer)]
      ensures notice == (if serverOk then Saved(currentFile) else SaveFailed(currentFile))
    {
      var content := buffer;
      files := files[currentFile := Text(content)];
      if serverOk {
        notice := Saved(currentFile);
      } else {
        notice := SaveFailed(currentFile);
      }
    }

    /** `loadFile`: a failed load leaves `files` as it was; a successful one
        sets that one entry to the reply's content. */
    method LoadFile(name: string, reply: LoadReply)
      modifies this`files
      ensures reply.LoadFailed? ==> files == old(files)
      ensures reply.Loaded? ==> files == old(files)[name := reply.content]
      ensures State() == Load(old(State()), name, reply)
    {
      if reply.Loaded? {
        files := files[name := reply.content];
      }
    }
  }
}
