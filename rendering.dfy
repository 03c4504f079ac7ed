/** The ffmpeg filtergraph serialiser and command assembly of the render backend
    (backend/rendering.py). The filtergraph is modelled twice: as structured
    `Filter` records produced by the fold `Build` (the specification), and as the
    loop `BuildFilterComplex` that appends filter strings the way the source does. */
module Rendering {
  import opened Wrappers
  import opened Strings
  import opened Wire

  /** Python's `int(r)` on a float: truncation toward zero. */
  function Trunc(r: real): (i: int)
    ensures 0.0 <= r ==> 0 <= i && i as real <= r < i as real + 1.0
    ensures r < 0.0 ==> i <= 0 && i as real - 1.0 < r <= i as real
  {
    if r >= 0.0 then r.Floor else -((-r).Floor)
  }

  /** How an f-string prints a number parsed from JSON: a whole number was parsed
      as a Python int and prints without a fraction; any other as a float. */
  function JsonNumberText(r: real): string {
    if r == r.Floor as real then IntText(r.Floor) else FloatText(r)
  }

  /** `Path(p).name`: the text after the last '/'. A path ending in '/' gives "" here,
      where Python drops the trailing slash first; the backend's paths all end in a name. */
  function Basename(p: string): (b: string)
    ensures '/' !in b
    ensures |b| <= |p|
  {
    if p == [] || p[|p| - 1] == '/' then ""
    else Basename(p[..|p| - 1]) + [p[|p| - 1]]
  }

  /** A file saved as `dir/name` has `name` as its basename when `name` has no '/'. */
  lemma {:induction false} BasenameAfterSlash(dir: string, name: string)
    requires '/' !in name
    ensures Basename(dir + "/" + name) == name
    decreases |name|
  {
    var p := dir + "/" + name;
    if name == [] {
      assert p[|p| - 1] == '/';
    } else {
      assert p[..|p| - 1] == dir + "/" + name[..|name| - 1];
      BasenameAfterSlash(dir, name[..|name| - 1]);
      assert name == name[..|name| - 1] + [name[|name| - 1]];
    }
  }

  /** `{Path(p).name: i for i, p in enumerate(inputs)}`. */
  function FileMap(inputs: seq<string>): (m: map<string, nat>)
    ensures forall name :: name in m ==> m[name] < |inputs|
    decreases |inputs|
  {
    if inputs == [] then map[]
    else FileMap(inputs[..|inputs| - 1])[Basename(inputs[|inputs| - 1]) := |inputs| - 1]
  }

  /** A name is a key exactly when some input has it as basename, and it maps to the
      LAST such input, since later entries of the comprehension overwrite earlier ones. */
  lemma {:induction false} FileMapLookup(inputs: seq<string>, name: string)
    ensures name in FileMap(inputs) <==> exists k :: 0 <= k < |inputs| && Basename(inputs[k]) == name
    ensures name in FileMap(inputs) ==>
      var i := FileMap(inputs)[name];
      && Basename(inputs[i]) == name
      && forall k :: i < k < |inputs| ==> Basename(inputs[k]) != name
    decreases |inputs|
  {
    if inputs != [] {
      var prefix := inputs[..|inputs| - 1];
      FileMapLookup(prefix, name);
      assert forall k :: 0 <= k < |prefix| ==> prefix[k] == inputs[k];
    }
  }

  // ---------------------------------------------------------------------------
  // Stream labels and filters

  /** A stream label: `[0:v]`, `[v{n}]`, `[scaled{n}]` or `[{index}:v]`. */
  datatype Label = Base | Out(n: nat) | Scaled(n: nat) | Input(index: nat)

  function LabelText(l: Label): (s: string)
    ensures |s| >= 3 && s[0] == '[' && s[|s| - 1] == ']'
  {
    match l
    case Base => "[0:v]"
    case Out(n) => "[v" + NatText(n) + "]"
    case Scaled(n) => "[scaled" + NatText(n) + "]"
    case Input(i) => "[" + NatText(i) + ":v]"
  }

  /** Output labels are distinct for distinct overlay numbers. */
  lemma OutLabelsDistinct(m: nat, n: nat)
    requires m != n
    ensures LabelText(Out(m)) != LabelText(Out(n))
  {
    var a, b := LabelText(Out(m)), LabelText(Out(n));
    if a == b {
      assert a[2..|a| - 1] == NatText(m);
      assert b[2..|b| - 1] == NatText(n);
      NatTextInjective(m, n);
    }
  }

  /** One filter of the chain. DrawText and Overlay are the main filters: each reads
      the current stream `src` and writes `out`; Scale prepares an overlay asset.
      DrawText holds the text content as given; it is escaped when written out. */
  datatype Filter =
    | DrawText(src: Label, text: string, x: int, y: int, fontSize: int, color: string,
               start: real, end: real, out: Label)
    | Scale(input: Label, width: real, height: real, out: Label)
    | Overlay(src: Label, top: Label, x: int, y: int, start: real, end: real, out: Label)

  /** The stream a filter reads first: the current stream, or for a scale step its input. */
  function Src(f: Filter): Label {
    match f
    case DrawText(src, _, _, _, _, _, _, _, _) => src
    case Scale(input, _, _, _) => input
    case Overlay(src, _, _, _, _, _, _) => src
  }

  function EnableExpr(start: real, end: real): string {
    "enable='between(t," + FloatText(start) + "," + FloatText(end) + ")'"
  }

  function FilterText(f: Filter): (s: string)
    ensures |s| > 0 && s[0] == '['
  {
    match f
    case DrawText(src, text, x, y, size, color, start, end, out) =>
      LabelText(src) + "drawtext=text='" + Escape(text) + "':" +
      "x=" + IntText(x) + ":y=" + IntText(y) + ":fontsize=" + IntText(size) +
      ":fontcolor=0x" + color + ":" + EnableExpr(start, end) + LabelText(out)
    case Scale(input, w, h, out) =>
      LabelText(input) + "scale=" + JsonNumberText(w) + ":" + JsonNumberText(h) + LabelText(out)
    case Overlay(src, top, x, y, start, end, out) =>
      LabelText(src) + LabelText(top) + "overlay=" +
      "x=" + IntText(x) + ":y=" + IntText(y) + ":" + EnableExpr(start, end) + LabelText(out)
  }

  function Texts(fs: seq<Filter>): (ts: seq<string>)
    ensures |ts| == |fs| && forall k :: 0 <= k < |fs| ==> ts[k] == FilterText(fs[k])
  {
    seq(|fs|, k requires 0 <= k < |fs| => FilterText(fs[k]))
  }

  lemma TextsAppend(a: seq<Filter>, b: seq<Filter>)
    ensures Texts(a + b) == Texts(a) + Texts(b)
  {
    assert forall k :: 0 <= k < |b| ==> (a + b)[|a| + k] == b[k];
  }

  // ---------------------------------------------------------------------------
  // Text escaping and colours

  /** The drawtext escaping: backslashes first, then colons, then single quotes. */
  function Escape(s: string): string {
    ReplaceChar(ReplaceChar(ReplaceChar(s, '\\', "\\\\"), ':', "\\:"), '\'', "\\'")
  }

  predicate IsSpecial(c: char) {
    c == '\\' || c == ':' || c == '\''
  }

  /** Reference escaping, one character at a time: a backslash before each special one. */
  function EscapeEach(s: string): (t: string)
    ensures |t| >= |s|
  {
    if s == [] then []
    else (if IsSpecial(s[0]) then ['\\', s[0]] else [s[0]]) + EscapeEach(s[1..])
  }

  function Unescape(t: string): string
    decreases |t|
  {
    if t == [] then []
    else if t[0] == '\\' && |t| >= 2 then [t[1]] + Unescape(t[2..])
    else [t[0]] + Unescape(t[1..])
  }

  /** Because backslashes are replaced first, the three sequential replacements never
      re-escape a backslash they introduced: the result escapes each character once. */
  lemma {:induction false} EscapeIsPerCharacter(s: string)
    ensures Escape(s) == EscapeEach(s)
    decreases |s|
  {
    if s != [] {
      var head, rest := [s[0]], s[1..];
      assert s == head + rest;
      ReplaceCharAppend(head, rest, '\\', "\\\\");
      var r1h, r1t := ReplaceChar(head, '\\', "\\\\"), ReplaceChar(rest, '\\', "\\\\");
      ReplaceCharAppend(r1h, r1t, ':', "\\:");
      var r2h, r2t := ReplaceChar(r1h, ':', "\\:"), ReplaceChar(r1t, ':', "\\:");
      ReplaceCharAppend(r2h, r2t, '\'', "\\'");
      EscapeIsPerCharacter(rest);
      assert ReplaceChar(r2h, '\'', "\\'") == if IsSpecial(s[0]) then ['\\', s[0]] else [s[0]];
    }
  }

  /** Escaping loses nothing: unescaping the drawtext text gives the content back. */
  lemma {:induction false} UnescapeEscape(s: string)
    ensures Unescape(Escape(s)) == s
  {
    EscapeIsPerCharacter(s);
    UnescapeEscapeEach(s);
  }

  lemma {:induction false} UnescapeEscapeEach(s: string)
    ensures Unescape(EscapeEach(s)) == s
    decreases |s|
  {
    if s != [] {
      var t := EscapeEach(s);
      UnescapeEscapeEach(s[1..]);
      if IsSpecial(s[0]) {
        assert t[0] == '\\' && t[1] == s[0] && t[2..] == EscapeEach(s[1..]);
      } else {
        assert t[0] == s[0] && t[1..] == EscapeEach(s[1..]);
      }
    }
  }

  /** `color[1:]` when the colour starts with '#'. */
  function StripHash(color: string): (c: string)
    ensures |color| > 0 && color[0] == '#' ==> "#" + c == color
    ensures (|color| == 0 || color[0] != '#') ==> c == color
  {
    if |color| > 0 && color[0] == '#' then color[1..] else color
  }

  // ---------------------------------------------------------------------------
  // The filtergraph, overlay by overlay

  function KindOf(ov: Meta): string {
    ov.kind.GetOr("text")
  }

  /** An overlay emits filters when it is text, or an image/video whose asset is an input. */
  predicate Emits(fileMap: map<string, nat>, ov: Meta) {
    KindOf(ov) == "text" ||
    (IsAssetKind(KindOf(ov)) && ov.content.Some? && ov.content.value in fileMap)
  }

  /** No overlay of the list emits a filter. */
  predicate NothingEmits(fileMap: map<string, nat>, ovs: seq<Meta>) {
    forall k :: 0 <= k < |ovs| ==> !Emits(fileMap, ovs[k])
  }

  predicate IsMain(f: Filter) {
    !f.Scale?
  }

  /** The filters emitted for overlay number `i`, reading the stream `current`:
      nothing, one main filter, or a scale step followed by a main filter. */
  function OverlayFilters(fileMap: map<string, nat>, i: nat, ov: Meta, current: Label): (fs: seq<Filter>)
    ensures |fs| <= 2
    ensures fs == [] <==> !Emits(fileMap, ov)
    ensures fs != [] ==> IsMain(fs[|fs| - 1]) && fs[|fs| - 1].src == current && fs[|fs| - 1].out == Out(i + 1)
    ensures |fs| == 2 ==> fs[0].Scale? && fs[0].input.Input? && fs[0].out == Scaled(i) && fs[1].Overlay? && fs[1].top == Scaled(i)
  {
    var start := ov.start.GetOr(0.0);
    var end := ov.end.GetOr(5.0);
    var x := Trunc(ov.x.GetOr(0.0));
    var y := Trunc(ov.y.GetOr(0.0));
    var out := Out(i + 1);
    var kind := KindOf(ov);
    if kind == "text" then
      [DrawText(current, ov.content.GetOr("Text"), x, y, Trunc(ov.fontSize.GetOr(24.0)),
                StripHash(ov.color.GetOr("white")), start, end, out)]
    else if IsAssetKind(kind) then
      if ov.content.None? || ov.content.value !in fileMap then []
      else
        var index := fileMap[ov.content.value];
        if Truthy(ov.width) && Truthy(ov.height) then
          [Scale(Input(index), ov.width.value, ov.height.value, Scaled(i)),
           Overlay(current, Scaled(i), x, y, start, end, out)]
        else
          [Overlay(current, Input(index), x, y, start, end, out)]
    else []
  }

  /** What the main filter of an emitting overlay carries: the truncated position,
      the time window with its defaults, and for text the escaped content, the colour
      without its '#' and the font size, with their defaults. */
  lemma OverlayFiltersFields(fileMap: map<string, nat>, i: nat, ov: Meta, current: Label)
    requires Emits(fileMap, ov)
    ensures var fs := OverlayFilters(fileMap, i, ov, current); var last := fs[|fs| - 1];
      && last.x == Trunc(ov.x.GetOr(0.0)) && last.y == Trunc(ov.y.GetOr(0.0))
      && last.start == ov.start.GetOr(0.0) && last.end == ov.end.GetOr(5.0)
      && (KindOf(ov) == "text" <==> last.DrawText?)
      && (last.DrawText? ==>
            && |fs| == 1
            && last.text == ov.content.GetOr("Text")
            && last.color == StripHash(ov.color.GetOr("white"))
            && last.fontSize == Trunc(ov.fontSize.GetOr(24.0)))
  {
  }

  /** An image or video overlay whose asset is found reads it by input index, through
      a scale step exactly when both width and height are truthy. */
  lemma OverlayFiltersAsset(fileMap: map<string, nat>, i: nat, ov: Meta, current: Label)
    requires Emits(fileMap, ov) && IsAssetKind(KindOf(ov))
    ensures var fs := OverlayFilters(fileMap, i, ov, current);
      var index := fileMap[ov.content.value];
      if Truthy(ov.width) && Truthy(ov.height) then
        && |fs| == 2
        && fs[0] == Scale(Input(index), ov.width.value, ov.height.value, Scaled(i))
        && fs[1].Overlay? && fs[1].top == Scaled(i)
      else
        |fs| == 1 && fs[0].Overlay? && fs[0].top == Input(index)
  {
  }

  /** The filter list and the final stream label after a prefix of the overlays. */
  datatype Graph = Graph(filters: seq<Filter>, current: Label)

  /** The fold the source's loop performs, one overlay at a time from the left. */
  function Build(fileMap: map<string, nat>, ovs: seq<Meta>): Graph
    decreases |ovs|
  {
    if ovs == [] then Graph([], Base)
    else
      var n := |ovs| - 1;
      var g := Build(fileMap, ovs[..n]);
      var fs := OverlayFilters(fileMap, n, ovs[n], g.current);
      Graph(g.filters + fs, if fs == [] then g.current else Out(n + 1))
  }

  /** The `filter_complex` string the source returns. */
  function FilterComplex(fileMap: map<string, nat>, ovs: seq<Meta>): string {
    Join(";", Texts(Build(fileMap, ovs).filters))
  }

  /** The final label is `[0:v]` exactly when nothing was emitted, and otherwise
      `[v{n}]` for the last overlay n that emitted. */
  lemma {:induction false} BuildFinalLabel(fileMap: map<string, nat>, ovs: seq<Meta>)
    ensures var g := Build(fileMap, ovs);
      && (g.current == Base <==> NothingEmits(fileMap, ovs))
      && (g.filters == [] <==> g.current == Base)
      && (g.current != Base ==>
            && g.current.Out? && 1 <= g.current.n <= |ovs|
            && Emits(fileMap, ovs[g.current.n - 1])
            && forall k :: g.current.n <= k < |ovs| ==> !Emits(fileMap, ovs[k]))
    decreases |ovs|
  {
    if ovs != [] {
      var n := |ovs| - 1;
      BuildFinalLabel(fileMap, ovs[..n]);
      BuildFinalLabelNext(fileMap, ovs);
    }
  }

  /** What BuildFinalLabel states of the graph `g` built from `ovs`. */
  ghost predicate FinalLabelOf(fileMap: map<string, nat>, ovs: seq<Meta>, g: Graph) {
    && (g.current == Base <==> NothingEmits(fileMap, ovs))
    && (g.filters == [] <==> g.current == Base)
    && (g.current != Base ==>
          && g.current.Out? && 1 <= g.current.n <= |ovs|
          && Emits(fileMap, ovs[g.current.n - 1])
          && forall k :: g.current.n <= k < |ovs| ==> !Emits(fileMap, ovs[k]))
  }

  lemma {:induction false} BuildFinalLabelNext(fileMap: map<string, nat>, ovs: seq<Meta>)
    requires ovs != [] && FinalLabelOf(fileMap, ovs[..|ovs| - 1], Build(fileMap, ovs[..|ovs| - 1]))
    ensures FinalLabelOf(fileMap, ovs, Build(fileMap, ovs))
  {
    var n := |ovs| - 1;
    var g := Build(fileMap, ovs[..n]);
    BuildStep(fileMap, ovs, n);
    assert ovs[..n + 1] == ovs;
    FinalLabelExtend(fileMap, ovs, g, OverlayFilters(fileMap, n, ovs[n], g.current), Build(fileMap, ovs));
  }

  /** One more overlay: an empty block keeps the label, any other moves it to that
      overlay's number. */
  lemma {:induction false} FinalLabelExtend(fileMap: map<string, nat>, ovs: seq<Meta>, g: Graph, block: seq<Filter>, next: Graph)
    requires ovs != [] && FinalLabelOf(fileMap, ovs[..|ovs| - 1], g)
    requires block == [] <==> !Emits(fileMap, ovs[|ovs| - 1])
    requires next == Graph(g.filters + block, if block == [] then g.current else Out(|ovs|))
    ensures FinalLabelOf(fileMap, ovs, next)
  {
    var prefix := ovs[..|ovs| - 1];
    assert forall k :: 0 <= k < |prefix| ==> prefix[k] == ovs[k];
  }

  /** The main filters of a list, in order. */
  function Mains(fs: seq<Filter>): (ms: seq<Filter>)
    ensures forall j :: 0 <= j < |ms| ==> IsMain(ms[j])
    ensures |ms| <= |fs|
  {
    if fs == [] then []
    else Mains(fs[..|fs| - 1]) + (if IsMain(fs[|fs| - 1]) then [fs[|fs| - 1]] else [])
  }

  lemma {:induction false} MainsAppend(a: seq<Filter>, b: seq<Filter>)
    ensures Mains(a + b) == Mains(a) + Mains(b)
    decreases |b|
  {
    if b == [] {
      assert a + b == a;
    } else {
      var ab := a + b;
      assert ab[..|ab| - 1] == a + b[..|b| - 1];
      MainsAppend(a, b[..|b| - 1]);
    }
  }

  /** Number of overlays that emit. */
  function EmitCount(fileMap: map<string, nat>, ovs: seq<Meta>): nat {
    if ovs == [] then 0
    else EmitCount(fileMap, ovs[..|ovs| - 1]) + (if Emits(fileMap, ovs[|ovs| - 1]) then 1 else 0)
  }

  /** One more overlay adds its own block of filters and moves the label on. */
  lemma {:induction false} BuildStep(fileMap: map<string, nat>, ovs: seq<Meta>, i: nat)
    requires i < |ovs|
    ensures var g := Build(fileMap, ovs[..i]);
      var block := OverlayFilters(fileMap, i, ovs[i], g.current);
      Build(fileMap, ovs[..i + 1]) == Graph(g.filters + block, if block == [] then g.current else Out(i + 1))
  {
    assert ovs[..i + 1][..i] == ovs[..i];
  }

  /** The main filters of one overlay's block: its last filter, if any. */
  lemma MainsOfBlock(fileMap: map<string, nat>, i: nat, ov: Meta, current: Label)
    ensures var block := OverlayFilters(fileMap, i, ov, current);
      Mains(block) == if block == [] then [] else [block[|block| - 1]]
  {
    var block := OverlayFilters(fileMap, i, ov, current);
    if |block| == 2 {
      assert block == [block[0]] + [block[1]];
      MainsAppend([block[0]], [block[1]]);
      assert Mains([block[0]]) == [];
    } else if |block| == 1 {
      assert block == [] + [block[0]];
    }
  }

  /** The main filters form one linear chain: the first reads `[0:v]`, each next one
      reads the label the previous one wrote, and the last written label is the final one. */
  lemma {:induction false} BuildIsLinearChain(fileMap: map<string, nat>, ovs: seq<Meta>)
    ensures var g := Build(fileMap, ovs); var ms := Mains(g.filters);
      && Linked(ms)
      && g.current == (if ms == [] then Base else ms[|ms| - 1].out)
    decreases |ovs|
  {
    if ovs != [] {
      var n := |ovs| - 1;
      BuildIsLinearChain(fileMap, ovs[..n]);
      BuildChainNext(fileMap, ovs, n);
      assert ovs[..n + 1] == ovs;
    }
  }

  lemma {:induction false} BuildChainNext(fileMap: map<string, nat>, ovs: seq<Meta>, i: nat)
    requires i < |ovs| && Chained(Build(fileMap, ovs[..i]))
    ensures Chained(Build(fileMap, ovs[..i + 1]))
  {
    var g := Build(fileMap, ovs[..i]);
    BuildStep(fileMap, ovs, i);
    MainsOfBlock(fileMap, i, ovs[i], g.current);
    ChainExtend(g, OverlayFilters(fileMap, i, ovs[i], g.current), Build(fileMap, ovs[..i + 1]));
  }

  /** A graph whose main filters form a chain ending at its current label. */
  ghost predicate Chained(g: Graph) {
    var ms := Mains(g.filters);
    Linked(ms) && g.current == (if ms == [] then Base else ms[|ms| - 1].out)
  }

  /** Appending a block whose only main filter (if any) reads the current label keeps
      the chain linked and moves the label to that filter's output. */
  lemma {:induction false} ChainExtend(g: Graph, block: seq<Filter>, next: Graph)
    requires Chained(g)
    requires Mains(block) == if block == [] then [] else [block[|block| - 1]]
    requires block != [] ==> IsMain(block[|block| - 1]) && block[|block| - 1].src == g.current
    requires next == Graph(g.filters + block, if block == [] then g.current else block[|block| - 1].out)
    ensures Chained(next)
  {
    MainsAppend(g.filters, block);
    if block != [] {
      LinkedSnoc(Mains(g.filters), block[|block| - 1]);
    } else {
      assert Mains(g.filters) + Mains(block) == Mains(g.filters);
    }
  }

  /** Each main filter reads the label its predecessor wrote; the first reads `[0:v]`. */
  ghost predicate Linked(ms: seq<Filter>) {
    && (|ms| > 0 ==> Src(ms[0]) == Base)
    && forall j {:trigger Src(ms[j])} :: 0 < j < |ms| ==> Src(ms[j]) == ms[j - 1].out
  }

  lemma {:induction false} LinkedSnoc(ms: seq<Filter>, f: Filter)
    requires Linked(ms)
    requires Src(f) == if ms == [] then Base else ms[|ms| - 1].out
    ensures Linked(ms + [f])
  {
    var r := ms + [f];
    forall j | 0 < j < |r|
      ensures Src(r[j]) == r[j - 1].out
    {
      assert r[j - 1] == ms[j - 1];
      if j < |ms| {
        assert r[j] == ms[j];
      }
    }
  }

  /** There is one main filter per emitting overlay. */
  lemma {:induction false} BuildMainCount(fileMap: map<string, nat>, ovs: seq<Meta>)
    ensures |Mains(Build(fileMap, ovs).filters)| == EmitCount(fileMap, ovs)
    decreases |ovs|
  {
    if ovs != [] {
      var n := |ovs| - 1;
      var g := Build(fileMap, ovs[..n]);
      var block := OverlayFilters(fileMap, n, ovs[n], g.current);
      BuildMainCount(fileMap, ovs[..n]);
      BuildStep(fileMap, ovs, n);
      assert ovs[..n + 1] == ovs;
      MainsAppend(g.filters, block);
      MainsOfBlock(fileMap, n, ovs[n], g.current);
    }
  }

  /** Every main filter writes `[v{n}]` for an emitting overlay n within the first
      `bound`, and the numbers strictly increase, so no label is written twice. */
  ghost predicate OutLabelsFrom(fileMap: map<string, nat>, ovs: seq<Meta>, ms: seq<Filter>, bound: nat)
    requires bound <= |ovs|
  {
    && (forall j :: 0 <= j < |ms| ==>
          ms[j].out.Out? && 1 <= ms[j].out.n <= bound && Emits(fileMap, ovs[ms[j].out.n - 1]))
    && (forall j1, j2 :: 0 <= j1 < j2 < |ms| ==> ms[j1].out.n < ms[j2].out.n)
  }

  /** One more overlay adds one main filter, writing `[v{i+1}]`, exactly when it emits. */
  lemma {:induction false} BuildMainsStep(fileMap: map<string, nat>, ovs: seq<Meta>, i: nat)
    requires i < |ovs|
    ensures var ms := Mains(Build(fileMap, ovs[..i]).filters);
      var ms' := Mains(Build(fileMap, ovs[..i + 1]).filters);
      && (Emits(fileMap, ovs[i]) ==> |ms'| > 0 && ms' == ms + [ms'[|ms'| - 1]] && ms'[|ms'| - 1].out == Out(i + 1))
      && (!Emits(fileMap, ovs[i]) ==> ms' == ms)
  {
    var g := Build(fileMap, ovs[..i]);
    var block := OverlayFilters(fileMap, i, ovs[i], g.current);
    BuildStep(fileMap, ovs, i);
    MainsAppend(g.filters, block);
    MainsOfBlock(fileMap, i, ovs[i], g.current);
  }

  lemma {:induction false} BuildOutLabelsUpTo(fileMap: map<string, nat>, ovs: seq<Meta>, i: nat)
    requires i <= |ovs|
    ensures OutLabelsFrom(fileMap, ovs, Mains(Build(fileMap, ovs[..i]).filters), i)
    decreases i
  {
    if i == 0 {
      assert ovs[..0] == [];
    } else {
      BuildOutLabelsUpTo(fileMap, ovs, i - 1);
      BuildOutLabelsNext(fileMap, ovs, i);
    }
  }

  lemma {:induction false} BuildOutLabelsNext(fileMap: map<string, nat>, ovs: seq<Meta>, i: nat)
    requires 1 <= i <= |ovs| && OutLabelsFrom(fileMap, ovs, Mains(Build(fileMap, ovs[..i - 1]).filters), i - 1)
    ensures OutLabelsFrom(fileMap, ovs, Mains(Build(fileMap, ovs[..i]).filters), i)
  {
    BuildMainsStep(fileMap, ovs, i - 1);
    OutLabelsStep(fileMap, ovs, Mains(Build(fileMap, ovs[..i - 1]).filters), Mains(Build(fileMap, ovs[..i]).filters), i);
  }

  /** Overlay number i adds the main filter writing `[v{i}]` when it emits, and none otherwise. */
  lemma {:induction false} OutLabelsStep(fileMap: map<string, nat>, ovs: seq<Meta>, ms: seq<Filter>, ms': seq<Filter>, i: nat)
    requires 1 <= i <= |ovs| && OutLabelsFrom(fileMap, ovs, ms, i - 1)
    requires Emits(fileMap, ovs[i - 1]) ==> |ms'| > 0 && ms' == ms + [ms'[|ms'| - 1]] && ms'[|ms'| - 1].out == Out(i)
    requires !Emits(fileMap, ovs[i - 1]) ==> ms' == ms
    ensures OutLabelsFrom(fileMap, ovs, ms', i)
  {
    if Emits(fileMap, ovs[i - 1]) {
      OutLabelsSnoc(fileMap, ovs, ms, ms'[|ms'| - 1], i);
    } else {
      OutLabelsWiden(fileMap, ovs, ms, i - 1);
    }
  }

  lemma {:induction false} OutLabelsWiden(fileMap: map<string, nat>, ovs: seq<Meta>, ms: seq<Filter>, bound: nat)
    requires bound < |ovs| && OutLabelsFrom(fileMap, ovs, ms, bound)
    ensures OutLabelsFrom(fileMap, ovs, ms, bound + 1)
  {
  }

  lemma {:induction false} OutLabelsSnoc(fileMap: map<string, nat>, ovs: seq<Meta>, ms: seq<Filter>, f: Filter, i: nat)
    requires 1 <= i <= |ovs| && OutLabelsFrom(fileMap, ovs, ms, i - 1)
    requires f.out == Out(i) && Emits(fileMap, ovs[i - 1])
    ensures OutLabelsFrom(fileMap, ovs, ms + [f], i)
  {
    var r := ms + [f];
    forall j | 0 <= j < |r|
      ensures r[j].out.Out? && 1 <= r[j].out.n <= i && Emits(fileMap, ovs[r[j].out.n - 1])
    {
      if j < |ms| { assert r[j] == ms[j]; }
    }
    forall j1, j2 | 0 <= j1 < j2 < |r|
      ensures r[j1].out.n < r[j2].out.n
    {
      assert r[j1] == ms[j1];
      if j2 < |ms| { assert r[j2] == ms[j2]; }
    }
  }

  /** The labels the main filters write are `[v{n}]` for emitting overlays n, strictly
      increasing, so no label is written twice. */
  lemma {:induction false} BuildOutLabels(fileMap: map<string, nat>, ovs: seq<Meta>)
    ensures OutLabelsFrom(fileMap, ovs, Mains(Build(fileMap, ovs).filters), |ovs|)
  {
    BuildOutLabelsUpTo(fileMap, ovs, |ovs|);
    assert ovs[..|ovs|] == ovs;
  }

  /** A scale step is followed at once by the overlay that reads its label, and that
      overlay writes the label numbered after the scaled one. */
  ghost predicate ScalesFeed(fs: seq<Filter>) {
    forall p :: 0 <= p < |fs| && fs[p].Scale? ==>
      && p + 1 < |fs| && fs[p + 1].Overlay? && fs[p + 1].top == fs[p].out
      && fs[p].input.Input? && fs[p].out.Scaled? && fs[p + 1].out == Out(fs[p].out.n + 1)
  }

  lemma {:induction false} ScalesFeedAppend(a: seq<Filter>, b: seq<Filter>)
    requires ScalesFeed(a) && ScalesFeed(b)
    ensures ScalesFeed(a + b)
  {
    var r := a + b;
    forall p | 0 <= p < |r| && r[p].Scale?
      ensures p + 1 < |r| && r[p + 1].Overlay? && r[p + 1].top == r[p].out
      ensures r[p].input.Input? && r[p].out.Scaled? && r[p + 1].out == Out(r[p].out.n + 1)
    {
      if p < |a| {
        assert r[p] == a[p] && a[p].Scale?;
        assert r[p + 1] == a[p + 1];
      } else {
        assert r[p] == b[p - |a|] && b[p - |a|].Scale?;
        assert r[p + 1] == b[p - |a| + 1];
      }
    }
  }

  lemma BlockScalesFeed(fileMap: map<string, nat>, i: nat, ov: Meta, current: Label)
    ensures ScalesFeed(OverlayFilters(fileMap, i, ov, current))
  {
  }

  lemma {:induction false} ScaleFeedsNextOverlay(fileMap: map<string, nat>, ovs: seq<Meta>)
    ensures ScalesFeed(Build(fileMap, ovs).filters)
    decreases |ovs|
  {
    if ovs != [] {
      var n := |ovs| - 1;
      var g := Build(fileMap, ovs[..n]);
      ScaleFeedsNextOverlay(fileMap, ovs[..n]);
      BlockScalesFeed(fileMap, n, ovs[n], g.current);
      ScalesFeedAppend(g.filters, OverlayFilters(fileMap, n, ovs[n], g.current));
    }
  }

  /** The filter string is empty exactly when no overlay emits. */
  lemma FilterComplexEmptyIff(fileMap: map<string, nat>, ovs: seq<Meta>)
    ensures FilterComplex(fileMap, ovs) == "" <==> NothingEmits(fileMap, ovs)
  {
    var fs := Build(fileMap, ovs).filters;
    BuildFinalLabel(fileMap, ovs);
    JoinEmptyIff(";", Texts(fs));
  }

  // ---------------------------------------------------------------------------
  // The source's loop

  /** build_filter_complex: walks the overlays once, appending filter strings and
      moving the current stream label forward. */
  method BuildFilterComplex(inputs: seq<string>, overlays: seq<Meta>) returns (filter: string, finalMap: string)
    ensures var g := Build(FileMap(inputs), overlays);
      filter == Join(";", Texts(g.filters)) && finalMap == LabelText(g.current)
  {
    var fileMap := FileMap(inputs);
    var chains: seq<Filter> := [];
    var current := Base;
    for i := 0 to |overlays|
      invariant Build(fileMap, overlays[..i]) == Graph(chains, current)
    {
      BuildStep(fileMap, overlays, i);
      ghost var block := OverlayFilters(fileMap, i, overlays[i], current);
      var ov := overlays[i];
      var kind := ov.kind.GetOr("text");
      var start := ov.start.GetOr(0.0);
      var end := ov.end.GetOr(5.0);
      var x := Trunc(ov.x.GetOr(0.0));
      var y := Trunc(ov.y.GetOr(0.0));
      var outputLabel := Out(i + 1);
      if kind == "text" {
        var text := ov.content.GetOr("Text");
        var fontSize := Trunc(ov.fontSize.GetOr(24.0));
        var fontColor := StripHash(ov.color.GetOr("white"));
        assert block == [DrawText(current, text, x, y, fontSize, fontColor, start, end, outputLabel)];
        chains := chains + [DrawText(current, text, x, y, fontSize, fontColor, start, end, outputLabel)];
        current := outputLabel;
      } else if kind == "image" || kind == "video" {
        if ov.content.None? || ov.content.value !in fileMap {
          assert chains + [] == chains;
          continue;
        }
        var inputIndex := fileMap[ov.content.value];
        if Truthy(ov.width) && Truthy(ov.height) {
          var scaledLabel := Scaled(i);
          assert block == [Scale(Input(inputIndex), ov.width.value, ov.height.value, scaledLabel),
                           Overlay(current, scaledLabel, x, y, start, end, outputLabel)];
          chains := chains + [Scale(Input(inputIndex), ov.width.value, ov.height.value, scaledLabel)];
          chains := chains + [Overlay(current, scaledLabel, x, y, start, end, outputLabel)];
        } else {
          assert block == [Overlay(current, Input(inputIndex), x, y, start, end, outputLabel)];
          chains := chains + [Overlay(current, Input(inputIndex), x, y, start, end, outputLabel)];
        }
        current := outputLabel;
      } else {
        assert block == [];
        assert chains + [] == chains;
      }
    }
    assert overlays[..|overlays|] == overlays;
    filter := Join(";", Texts(chains));
    finalMap := LabelText(current);
  }

  // ---------------------------------------------------------------------------
  // The ffmpeg argument vector of render_video

  /** The `-i` arguments: the pair `-i p` for every input p, in order. */
  method InputArguments(inputs: seq<string>) returns (args: seq<string>)
    ensures |args| == 2 * |inputs|
    ensures forall k :: 0 <= k < |inputs| ==> args[2 * k..2 * k + 2] == ["-i", inputs[k]]
  {
    args := [];
    for i := 0 to |inputs|
      invariant |args| == 2 * i
      invariant forall k :: 0 <= k < i ==> args[2 * k..2 * k + 2] == ["-i", inputs[k]]
    {
      ghost var before := args;
      args := args + ["-i", inputs[i]];
      forall k | 0 <= k < i + 1
        ensures args[2 * k..2 * k + 2] == ["-i", inputs[k]]
      {
        if k < i {
          assert args[2 * k..2 * k + 2] == before[2 * k..2 * k + 2];
        }
      }
    }
  }

  const EncodeOptions: seq<string> :=
    ["-c:v", "libx264", "-preset", "ultrafast", "-crf", "23", "-c:a", "aac", "-movflags", "+faststart"]
  const CopyOptions: seq<string> := ["-c", "copy", "-movflags", "+faststart"]

  /** The argument vector render_video hands to ffmpeg: the executable, `-y`, one
      `-i` pair per input (main video first), then either the filtergraph with its
      stream maps and re-encoding options or a plain stream copy, and the output. */
  method RenderCommand(ffmpeg: string, mainVideo: string, overlayAssets: seq<string>,
                       overlays: seq<Meta>, outputPath: string) returns (cmd: seq<string>)
    ensures var inputs := [mainVideo] + overlayAssets;
      var fileMap := FileMap(inputs);
      var n := 2 + 2 * |inputs|;
      && |cmd| == n + 1 + (if NothingEmits(fileMap, overlays) then |CopyOptions| else 6 + |EncodeOptions|)
      && cmd[0] == ffmpeg && cmd[1] == "-y"
      && (forall k :: 0 <= k < |inputs| ==> cmd[2..n][2 * k..2 * k + 2] == ["-i", inputs[k]])
      && cmd[|cmd| - 1] == outputPath
      && (NothingEmits(fileMap, overlays) ==> cmd[n..|cmd| - 1] == CopyOptions)
      && (!NothingEmits(fileMap, overlays) ==>
            cmd[n..|cmd| - 1] == ["-filter_complex", FilterComplex(fileMap, overlays), "-map",
                                  LabelText(Build(fileMap, overlays).current), "-map", "0:a?"] + EncodeOptions)
  {
    var inputs := [mainVideo] + overlayAssets;
    var inputArgs := InputArguments(inputs);
    var filterStr, finalMap := BuildFilterComplex(inputs, overlays);
    FilterComplexEmptyIff(FileMap(inputs), overlays);
    var options: seq<string>;
    if filterStr != "" {
      options := ["-filter_complex", filterStr, "-map", finalMap, "-map", "0:a?"] + EncodeOptions;
    } else {
      options := CopyOptions;
    }
    cmd := [ffmpeg, "-y"] + inputArgs + options + [outputPath];
    CommandParts(ffmpeg, inputArgs, options, outputPath);
  }

  /** Where the parts of an argument vector sit once they are concatenated. */
  lemma CommandParts(ffmpeg: string, inputArgs: seq<string>, options: seq<string>, outputPath: string)
    ensures var cmd := [ffmpeg, "-y"] + inputArgs + options + [outputPath];
      && |cmd| == 3 + |inputArgs| + |options|
      && cmd[0] == ffmpeg && cmd[1] == "-y"
      && cmd[2..2 + |inputArgs|] == inputArgs
      && cmd[2 + |inputArgs|..|cmd| - 1] == options
      && cmd[|cmd| - 1] == outputPath
  {
    var cmd := [ffmpeg, "-y"] + inputArgs + options + [outputPath];
    assert cmd[2..2 + |inputArgs|] == inputArgs;
    assert cmd[2 + |inputArgs|..|cmd| - 1] == options;
  }
}
