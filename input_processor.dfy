/** Input layer: turns a text, URL or uploaded-file request into one cleaned
    plain-text string (backend/src/agent/inputProcessor.js). */
module InputProcessor {
  import opened Wrappers
  import opened Strings

  /** The hard cap `cleanText` puts on the text handed downstream. */
  const MaxTextLength: nat := 5000

  /** The single message every failure of `processInput` is re-thrown with. */
  const FailedMessage: string := "Failed to process input content"

  type byte = bv8

  /** The characters of the regular-expression class `\s`; these are also
      exactly the characters `String.prototype.trim` strips (white space and
      line terminators). */
  predicate IsWhitespace(c: char) {
    || c == '\t' || c == '\n' || c == '\U{000B}' || c == '\U{000C}' || c == '\r'
    || c == ' ' || c == '\U{00A0}' || c == '\U{1680}'
    || ('\U{2000}' <= c <= '\U{200A}')
    || c == '\U{2028}' || c == '\U{2029}' || c == '\U{202F}' || c == '\U{205F}'
    || c == '\U{3000}' || c == '\U{FEFF}'
  }

  /** The shape `cleanText` guarantees: the only white space is ' ', and no two
      white-space characters are adjacent. */
  predicate Collapsed(s: string) {
    && (forall i :: 0 <= i < |s| && IsWhitespace(s[i]) ==> s[i] == ' ')
    && (forall i :: 0 <= i < |s| - 1 ==> !(IsWhitespace(s[i]) && IsWhitespace(s[i + 1])))
  }

  /** Drops the leading run of white space. */
  function SkipWhitespace(s: string): (r: string)
    ensures |r| <= |s| && r == s[|s| - |r|..]
    ensures r == [] || !IsWhitespace(r[0])
    ensures forall i :: 0 <= i < |s| - |r| ==> IsWhitespace(s[i])
    ensures s != [] && IsWhitespace(s[0]) ==> |r| < |s|
  {
    if s != [] && IsWhitespace(s[0]) then SkipWhitespace(s[1..]) else s
  }

  /** Drops the trailing run of white space. */
  function SkipTrailingWhitespace(s: string): (r: string)
    ensures |r| <= |s| && r == s[..|r|]
    ensures r == [] || !IsWhitespace(r[|r| - 1])
    ensures forall i :: |r| <= i < |s| ==> IsWhitespace(s[i])
  {
    if s != [] && IsWhitespace(s[|s| - 1]) then SkipTrailingWhitespace(s[..|s| - 1]) else s
  }

  /** `text.replace(/\s+/g, " ")`: every maximal run of white space becomes one
      space. */
  function CollapseWhitespace(s: string): (r: string)
    ensures |r| <= |s|
    ensures r == [] <==> s == []
    ensures r != [] ==> (IsWhitespace(r[0]) <==> IsWhitespace(s[0]))
    ensures Collapsed(r)
    decreases |s|
  {
    if s == [] then []
    else if IsWhitespace(s[0]) then
      var rest := CollapseWhitespace(SkipWhitespace(s));
      assert rest == [] || !IsWhitespace(rest[0]);
      [' '] + rest
    else
      var rest := CollapseWhitespace(s[1..]);
      assert rest != [] && IsWhitespace(rest[0]) ==> rest[0] == ' ';
      [s[0]] + rest
  }

  /** `s.trim()`: what is removed on either side is white space only. */
  function Trim(s: string): (r: string)
    ensures r == [] || (!IsWhitespace(r[0]) && !IsWhitespace(r[|r| - 1]))
    ensures exists a, b :: Trimmed(s, r, a, b)
  {
    var t := SkipWhitespace(s);
    var r := SkipTrailingWhitespace(t);
    var a := |s| - |t|;
    assert t == s[a..];
    assert r == s[a..a + |r|];
    forall i | a + |r| <= i < |s| ensures IsWhitespace(s[i]) {
      assert s[i] == t[i - a];
    }
    assert Trimmed(s, r, a, a + |r|);
    r
  }

  /** `r` is `s[a..b]`, and everything of `s` outside it is white space. */
  predicate Trimmed(s: string, r: string, a: int, b: int) {
    && 0 <= a <= b <= |s| && r == s[a..b]
    && (forall i :: 0 <= i < a ==> IsWhitespace(s[i]))
    && (forall i :: b <= i < |s| ==> IsWhitespace(s[i]))
  }

  /** The whitespace-collapsed, trimmed text before the length cap. */
  function Normalize(s: string): (r: string)
    ensures Collapsed(r)
    ensures r == [] || (!IsWhitespace(r[0]) && !IsWhitespace(r[|r| - 1]))
  {
    var c := CollapseWhitespace(s);
    var r := Trim(c);
    CollapsedSlice(c, r);
    r
  }

  lemma CollapsedSlice(s: string, r: string)
    requires Collapsed(s)
    requires exists a, b :: 0 <= a <= b <= |s| && r == s[a..b]
    ensures Collapsed(r)
  {
    var a, b :| 0 <= a <= b <= |s| && r == s[a..b];
    forall i | 0 <= i < |r| - 1 ensures !(IsWhitespace(r[i]) && IsWhitespace(r[i + 1])) {
      assert r[i] == s[a + i] && r[i + 1] == s[a + i + 1];
    }
  }

  /** `cleanText`: collapse white space, trim, keep at most 5000 characters. */
  function CleanText(s: string): (r: string)
    ensures |r| <= MaxTextLength
    ensures Collapsed(r)
    ensures r == [] || !IsWhitespace(r[0])
    ensures StartsWith(Normalize(s), r)
    ensures |r| == if |Normalize(s)| < MaxTextLength then |Normalize(s)| else MaxTextLength
    ensures |Normalize(s)| <= MaxTextLength ==> r == Normalize(s)
    ensures r != [] && IsWhitespace(r[|r| - 1]) ==> |Normalize(s)| > MaxTextLength
  {
    var n := Normalize(s);
    var r := Take(n, MaxTextLength);
    assert r == n[0..|r|];
    CollapsedSlice(n, r);
    r
  }

  /** The request payload: a string (the text itself, or a URL), or an
      uploaded file's descriptor. */
  datatype Payload = Text(s: string) | Upload(mimetype: string, path: string)

  /** The foreign libraries the input layer calls; `None` means the call threw.
      - fetchBodyText: `axios.get` plus cheerio's removal of script and style
        elements and `$("body").text()`;
      - readFile: `fs.readFileSync`;
      - pdfText: `pdf-parse`;  docxText: `mammoth.extractRawText`;
      - decodeUtf8: `buffer.toString("utf8")`, which never throws. */
  datatype Extractors = Extractors(
    fetchBodyText: string -> Option<string>,
    readFile: string -> Option<seq<byte>>,
    pdfText: seq<byte> -> Option<string>,
    docxText: seq<byte> -> Option<string>,
    decodeUtf8: seq<byte> -> string)

  /** The raw text of a file upload, chosen by mimetype alone. */
  function ExtractFile(mimetype: string, buffer: seq<byte>, x: Extractors): Option<string> {
    if mimetype == "application/pdf" then x.pdfText(buffer)
    else if Includes(mimetype, "wordprocessingml") then x.docxText(buffer)
    else Some(x.decodeUtf8(buffer))
  }

  /** The raw text before cleaning, or `None` when anything in the `try` block
      threw: a failing extractor, a payload of the wrong shape for its type
      (a non-string `text` or `url`, a string `file`), or the unsupported-type
      error. */
  function Extract(kind: string, data: Payload, x: Extractors): Option<string> {
    if kind == "text" then
      if data.Text? then Some(data.s) else None
    else if kind == "url" then
      if data.Text? then x.fetchBodyText(data.s) else None
    else if kind == "file" then
      if data.Upload? then
        match x.readFile(data.path)
        case None => None
        case Some(buffer) => ExtractFile(data.mimetype, buffer, x)
      else None
    else None
  }

  /** `processInput(type, data)`: every success is `cleanText` of what was
      extracted, every failure the one generic error. */
  function ProcessInput(kind: string, data: Payload, x: Extractors): (r: Result<string>)
    ensures r.Err? <==> Extract(kind, data, x).None?
    ensures r.Err? ==> r.error == FailedMessage
    ensures r.Ok? ==> r.value == CleanText(Extract(kind, data, x).value)
    ensures r.Ok? ==> |r.value| <= MaxTextLength && Collapsed(r.value)
  {
    match Extract(kind, data, x)
    case Some(raw) => Ok(CleanText(raw))
    case None => Err(FailedMessage)
  }

  // ---------------------------------------------------------------------------
  // Properties of the cleaning step

  /** The characters of `s` that are not white space, in order. */
  function Visible(s: string): string {
    if s == [] then []
    else if IsWhitespace(s[0]) then Visible(s[1..])
    else [s[0]] + Visible(s[1..])
  }

  lemma {:induction false} VisibleSkip(s: string)
    ensures Visible(SkipWhitespace(s)) == Visible(s)
  {
    if s != [] && IsWhitespace(s[0]) {
      VisibleSkip(s[1..]);
    }
  }

  /** Collapsing white space keeps every other character, in order. */
  lemma {:induction false} CollapseKeepsVisible(s: string)
    ensures Visible(CollapseWhitespace(s)) == Visible(s)
    decreases |s|
  {
    if s != [] {
      if IsWhitespace(s[0]) {
        var t := SkipWhitespace(s);
        CollapseKeepsVisible(t);
        VisibleSkip(s);
        var r := [' '] + CollapseWhitespace(t);
        assert r[1..] == CollapseWhitespace(t);
        assert Visible(r) == Visible(r[1..]);
      } else {
        CollapseKeepsVisible(s[1..]);
        var r := [s[0]] + CollapseWhitespace(s[1..]);
        assert r[1..] == CollapseWhitespace(s[1..]);
      }
    }
  }

  lemma {:induction false} VisibleConcat(x: string, y: string)
    ensures Visible(x + y) == Visible(x) + Visible(y)
    decreases |x|
  {
    if x != [] {
      assert (x + y)[1..] == x[1..] + y;
      VisibleConcat(x[1..], y);
    } else {
      assert x + y == y;
    }
  }

  lemma {:induction false} VisibleBlank(w: string)
    requires forall i :: 0 <= i < |w| ==> IsWhitespace(w[i])
    ensures Visible(w) == []
  {
    if w != [] {
      VisibleBlank(w[1..]);
    }
  }

  lemma VisibleOfTrimmed(s: string, r: string, a: int, b: int)
    requires Trimmed(s, r, a, b)
    ensures Visible(r) == Visible(s)
  {
    assert s == s[..a] + r + s[b..];
    VisibleConcat(s[..a] + r, s[b..]);
    VisibleConcat(s[..a], r);
    VisibleBlank(s[..a]);
    VisibleBlank(s[b..]);
  }

  /** Trimming removes white space only. */
  lemma TrimKeepsVisible(s: string)
    ensures Visible(Trim(s)) == Visible(s)
  {
    var r := Trim(s);
    var a, b :| Trimmed(s, r, a, b);
    VisibleOfTrimmed(s, r, a, b);
  }

  /** Collapsing and trimming keep every character that is not white space, in
      order. */
  lemma NormalizeKeepsVisible(s: string)
    ensures Visible(Normalize(s)) == Visible(s)
  {
    CollapseKeepsVisible(s);
    TrimKeepsVisible(CollapseWhitespace(s));
  }

  lemma {:induction false} SkipBlankPrefix(w: string, v: string)
    requires forall i :: 0 <= i < |w| ==> IsWhitespace(w[i])
    requires v == [] || !IsWhitespace(v[0])
    ensures SkipWhitespace(w + v) == v
  {
    if w != [] {
      assert (w + v)[1..] == w[1..] + v;
      SkipBlankPrefix(w[1..], v);
    } else {
      assert w + v == v;
    }
  }

  lemma {:induction false} SkipWithin(u: string, t: string)
    requires u != [] && !IsWhitespace(u[|u| - 1])
    ensures SkipWhitespace(u + t) == SkipWhitespace(u) + t
  {
    if IsWhitespace(u[0]) {
      assert (u + t)[1..] == u[1..] + t;
      SkipWithin(u[1..], t);
    }
  }

  /** An interior run of white space, between two characters that are not
      white space, becomes exactly one space: words are never merged. */
  lemma CollapseRun(u: string, w: string, v: string)
    requires w != [] && forall i :: 0 <= i < |w| ==> IsWhitespace(w[i])
    requires u == [] || !IsWhitespace(u[|u| - 1])
    requires v == [] || !IsWhitespace(v[0])
    ensures CollapseWhitespace(u + w + v) == CollapseWhitespace(u) + [' '] + CollapseWhitespace(v)
  {
    ConcatAssoc(u, w, v);
    SkipBlankPrefix(w, v);
    CollapseRunBefore(u, w + v, CollapseWhitespace(v));
  }

  /** The same, with the white space and what follows it taken together as
      `x`, whose leading blanks skip to a `v` collapsing to `cv`. */
  lemma {:induction false} CollapseRunBefore(u: string, x: string, cv: string)
    requires x != [] && IsWhitespace(x[0]) && cv == CollapseWhitespace(SkipWhitespace(x))
    requires u == [] || !IsWhitespace(u[|u| - 1])
    ensures CollapseWhitespace(u + x) == CollapseWhitespace(u) + [' '] + cv
    decreases |u|, 1
  {
    if u == [] {
      CollapseRunEmpty(x, cv);
    } else if IsWhitespace(u[0]) {
      CollapseRunBlank(u, x, cv);
    } else {
      CollapseRunWord(u, x, cv);
    }
  }

  lemma CollapseRunEmpty(x: string, cv: string)
    requires x != [] && IsWhitespace(x[0]) && cv == CollapseWhitespace(SkipWhitespace(x))
    ensures CollapseWhitespace([] + x) == CollapseWhitespace([]) + [' '] + cv
  {
    assert CollapseWhitespace(x) == [' '] + cv;
    EmptyLeft(x);
    ConcatAssoc([], [' '], cv);
    EmptyLeft([' '] + cv);
  }

  lemma EmptyLeft(y: string)
    ensures [] + y == y
  {}

  lemma {:induction false} CollapseRunBlank(u: string, x: string, cv: string)
    requires x != [] && IsWhitespace(x[0]) && cv == CollapseWhitespace(SkipWhitespace(x))
    requires u != [] && IsWhitespace(u[0]) && !IsWhitespace(u[|u| - 1])
    ensures CollapseWhitespace(u + x) == CollapseWhitespace(u) + [' '] + cv
    decreases |u|, 0
  {
    var t := SkipWhitespace(u);
    CollapseRunBlankHead(u, x, t);
    CollapseRunBefore(t, x, cv);
    CollapseStep(' ', CollapseWhitespace(u + x), CollapseWhitespace(t + x), CollapseWhitespace(u), CollapseWhitespace(t), cv);
  }

  lemma {:induction false} CollapseRunWord(u: string, x: string, cv: string)
    requires x != [] && IsWhitespace(x[0]) && cv == CollapseWhitespace(SkipWhitespace(x))
    requires u != [] && !IsWhitespace(u[0]) && !IsWhitespace(u[|u| - 1])
    ensures CollapseWhitespace(u + x) == CollapseWhitespace(u) + [' '] + cv
    decreases |u|, 0
  {
    var rest := u[1..];
    assert rest == [] || rest[|rest| - 1] == u[|u| - 1];
    CollapseRunWordHead(u, x);
    CollapseRunBefore(rest, x, cv);
    CollapseStep(u[0], CollapseWhitespace(u + x), CollapseWhitespace(rest + x), CollapseWhitespace(u), CollapseWhitespace(rest), cv);
  }

  /** One step of `CollapseRunBefore`: the same head in front of both sides. */
  lemma CollapseStep(h: char, whole: string, wholeRest: string, part: string, partRest: string, cv: string)
    requires whole == [h] + wholeRest && part == [h] + partRest
    requires wholeRest == partRest + [' '] + cv
    ensures whole == part + [' '] + cv
  {
    ConsAssoc(h, partRest, cv);
  }

  lemma ConcatAssoc(a: string, b: string, c: string)
    ensures a + b + c == a + (b + c)
  {}

  lemma ConsAssoc(h: char, b: string, c: string)
    ensures [h] + (b + [' '] + c) == [h] + b + [' '] + c
  {}

  /** A leading run of white space before a non-blank `u` is skipped the same
      way whatever follows `u`. */
  lemma CollapseRunBlankHead(u: string, x: string, t: string)
    requires u != [] && IsWhitespace(u[0]) && !IsWhitespace(u[|u| - 1])
    requires t == SkipWhitespace(u)
    ensures |t| < |u| && t != [] && !IsWhitespace(t[|t| - 1])
    ensures CollapseWhitespace(u + x) == [' '] + CollapseWhitespace(t + x)
    ensures CollapseWhitespace(u) == [' '] + CollapseWhitespace(t)
  {
    SkipWithin(u, x);
    assert t[|t| - 1] == u[|u| - 1];
  }

  /** A character that is not white space at the head is copied. */
  lemma CollapseRunWordHead(u: string, x: string)
    requires u != [] && !IsWhitespace(u[0])
    ensures CollapseWhitespace(u + x) == [u[0]] + CollapseWhitespace(u[1..] + x)
    ensures CollapseWhitespace(u) == [u[0]] + CollapseWhitespace(u[1..])
  {
    assert (u + x)[1..] == u[1..] + x;
  }

  /** Collapsing changes a string exactly when it is not already collapsed. */
  lemma {:induction false} CollapseFixedPoints(s: string)
    ensures CollapseWhitespace(s) == s <==> Collapsed(s)
    decreases |s|
  {
    if Collapsed(s) && s != [] {
      assert s[1..] == s[1..|s|];
      CollapsedSlice(s, s[1..]);
      if IsWhitespace(s[0]) {
        assert s[0] == ' ';
        assert |s| > 1 ==> !IsWhitespace(s[1]);
        assert SkipWhitespace(s) == s[1..];
      }
      CollapseFixedPoints(s[1..]);
      assert [s[0]] + s[1..] == s;
    }
  }

  /** So collapsing twice is collapsing once. */
  lemma CollapseIdempotent(s: string)
    ensures CollapseWhitespace(CollapseWhitespace(s)) == CollapseWhitespace(s)
  {
    CollapseFixedPoints(CollapseWhitespace(s));
  }

  /** A text that has no white space at either end, no run of two white-space
      characters and no white space other than ' ', and is at most 5000
      characters long, comes out of `cleanText` unchanged. */
  lemma CleanTextFixedPoints(s: string)
    requires Collapsed(s) && |s| <= MaxTextLength
    requires s == [] || (!IsWhitespace(s[0]) && !IsWhitespace(s[|s| - 1]))
    ensures CleanText(s) == s
  {
    CollapseFixedPoints(s);
  }

  // ---------------------------------------------------------------------------
  // Dispatch

  /** Type "text" is `cleanText(data)`. */
  lemma TextInput(s: string, x: Extractors)
    ensures ProcessInput("text", Text(s), x) == Ok(CleanText(s))
  {}

  /** Type "url" is `cleanText` of the fetched body text, or the generic error
      when fetching fails. */
  lemma UrlInput(location: string, x: Extractors)
    ensures ProcessInput("url", Text(location), x) ==
      match x.fetchBodyText(location)
      case Some(body) => Ok(CleanText(body))
      case None => Err(FailedMessage)
  {}

  /** Type "file": the mimetype alone picks the extractor, and its text always
      passes through `cleanText`. */
  lemma FileInput(mimetype: string, path: string, buffer: seq<byte>, x: Extractors)
    requires x.readFile(path) == Some(buffer)
    ensures mimetype == "application/pdf" ==>
      ProcessInput("file", Upload(mimetype, path), x) ==
        (if x.pdfText(buffer).Some? then Ok(CleanText(x.pdfText(buffer).value)) else Err(FailedMessage))
    ensures mimetype != "application/pdf" && Includes(mimetype, "wordprocessingml") ==>
      ProcessInput("file", Upload(mimetype, path), x) ==
        (if x.docxText(buffer).Some? then Ok(CleanText(x.docxText(buffer).value)) else Err(FailedMessage))
    ensures mimetype != "application/pdf" && !Includes(mimetype, "wordprocessingml") ==>
      ProcessInput("file", Upload(mimetype, path), x) == Ok(CleanText(x.decodeUtf8(buffer)))
  {
    assert Extract("file", Upload(mimetype, path), x) == ExtractFile(mimetype, buffer, x);
  }

  /** An unsupported type is caught and re-thrown as the generic error. */
  lemma UnsupportedInput(kind: string, data: Payload, x: Extractors)
    requires kind != "text" && kind != "url" && kind != "file"
    ensures ProcessInput(kind, data, x) == Err(FailedMessage)
  {}
}
