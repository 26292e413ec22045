/** The back end's image service: the size bound applied before OCR, the
    choice between the two OCR engines' texts, recognising a financial
    document, analysing one (document type, amounts, dates, parties), and
    looking for an identity-card number.  Decoding the image, the OCR
    engines and Pillow's filters are outside the model: what they produce is
    a parameter.

    The regular expressions of the source are modelled by a small greedy
    matcher over a list of steps (a literal, one character out of a set, a
    bounded run of a character class).  For every pattern the service uses,
    each greedy run is followed by a step that cannot start with a character
    of the run's class, so Python's backtracking matcher finds the same match
    the greedy one does. */
module ImageService {
  import opened Text
  import Seqs

  // ---------------------------------------------------------------------------
  // Pre-processing: the size bound

  /** The largest side `preprocess_image` lets through unscaled. */
  const MaxSide: nat := 1600

  datatype Size = Size(width: nat, height: nat)

  predicate Fits(s: Size) {
    s.width <= MaxSide && s.height <= MaxSide
  }

  function MinReal(a: real, b: real): real {
    if a <= b then a else b
  }

  /** The size `preprocess_image` asks `resize` for when a side exceeds the
      bound: both sides multiplied by the smaller of `MaxSide / width` and
      `MaxSide / height`, then truncated (`int(...)`).  The longer side lands
      exactly on the bound and neither side grows. */
  function TargetSize(s: Size): (r: Size)
    requires s.width > 0 && s.height > 0 && !Fits(s)
    ensures Fits(r)
    ensures r.width <= s.width && r.height <= s.height
    ensures s.width >= s.height ==> r.width == MaxSide
    ensures s.height >= s.width ==> r.height == MaxSide
  {
    var ratio := MinReal(MaxSide as real / s.width as real, MaxSide as real / s.height as real);
    ScaledSizes(s);
    Size((s.width as real * ratio).Floor, (s.height as real * ratio).Floor)
  }

  lemma ScaledSizes(s: Size)
    requires s.width > 0 && s.height > 0 && !Fits(s)
    ensures
      var w := s.width as real;
      var h := s.height as real;
      var ratio := MinReal(MaxSide as real / w, MaxSide as real / h);
      && 0 <= (w * ratio).Floor <= MaxSide && (w * ratio).Floor <= s.width
      && 0 <= (h * ratio).Floor <= MaxSide && (h * ratio).Floor <= s.height
      && (s.width >= s.height ==> (w * ratio).Floor == MaxSide)
      && (s.height >= s.width ==> (h * ratio).Floor == MaxSide)
  {
    var w := s.width as real;
    var h := s.height as real;
    var m := MaxSide as real;
    var ratio := MinReal(m / w, m / h);
    assert ratio < 1.0;
    ScaledSide(w, ratio, m);
    ScaledSide(h, ratio, m);
    if s.width >= s.height {
      assert m / w <= m / h by { DivideByLarger(m, h, w); }
      assert w * ratio == m;
    }
    if s.height >= s.width {
      assert m / h <= m / w by { DivideByLarger(m, w, h); }
      assert h * ratio == m;
    }
  }

  lemma DivideByLarger(m: real, a: real, b: real)
    requires m > 0.0 && 0.0 < a <= b
    ensures m / b <= m / a
  {
    assert m / b * b == m == m / a * a;
  }

  /** A side scaled by `ratio`, which is positive and at most `m / side`,
      stays within `[0, m]`; when `ratio < 1` it does not grow. */
  lemma ScaledSide(side: real, ratio: real, m: real)
    requires side >= 1.0 && m > 0.0 && 0.0 < ratio <= m / side
    ensures 0 <= (side * ratio).Floor <= m.Floor
    ensures ratio < 1.0 ==> (side * ratio).Floor <= side.Floor
  {
    assert side * ratio <= side * (m / side);
    if ratio < 1.0 {
      assert side * ratio < side * 1.0;
    }
  }

  /** `preprocess_image`'s effect on the size.  Within the bound it is kept.
      Otherwise the image is resized to the target size, unless computing the
      ratio divides by a zero side or truncation leaves a side at zero, which
      Pillow's `resize` refuses: in both cases the exception handler returns
      the image unscaled. */
  function PreprocessedSize(s: Size): (r: Size)
    ensures Fits(s) ==> r == s
    ensures r == s || (Fits(r) && r.width >= 1 && r.height >= 1 && r.width <= s.width && r.height <= s.height)
  {
    if Fits(s) || s.width == 0 || s.height == 0 then s
    else
      var t := TargetSize(s);
      if t.width >= 1 && t.height >= 1 then t else s
  }

  /** As long as neither side is more than `MaxSide` times the other, the
      pre-processed image is within the bound. */
  lemma ModerateImageFits(s: Size)
    requires s.width > 0 && s.height > 0
    requires s.width <= MaxSide * s.height && s.height <= MaxSide * s.width
    ensures Fits(PreprocessedSize(s))
  {
    if !Fits(s) {
      var w := s.width as real;
      var h := s.height as real;
      var m := MaxSide as real;
      var t := TargetSize(s);
      if s.width >= s.height {
        DivideByLarger(m, h, w);
        ShortSideKept(w, h, m);
      } else {
        DivideByLarger(m, w, h);
        ShortSideKept(h, w, m);
      }
    }
  }

  /** The shorter side, scaled by `m / long`, keeps at least one pixel when
      the longer side is at most `m` times the shorter. */
  lemma ShortSideKept(long: real, short: real, m: real)
    requires m > 0.0 && 0.0 < short <= long && long <= short * m
    ensures (short * (m / long)).Floor >= 1
  {
    assert short * (m / long) == short * m / long;
    assert short * m / long >= 1.0;
  }

  /** A very elongated image keeps its size: its short side truncates to
      zero, the resize is refused, and the long side stays over the bound. */
  lemma ElongatedImageUnscaled()
    ensures PreprocessedSize(Size(3201, 1)) == Size(3201, 1)
    ensures !Fits(PreprocessedSize(Size(3201, 1)))
  {
    var m := MaxSide as real;
    assert m / 3201.0 <= m / 1.0;
    assert (1.0 * (m / 3201.0)).Floor == 0;
  }

  // ---------------------------------------------------------------------------
  // Text extraction

  /** What the OCR engines did with one image: whether an OCR provider was
      set up at start-up, Tesseract's text (`None` when the call raised),
      whether EasyOCR can be imported, and the text fragments EasyOCR read
      (`None` when it raised). */
  datatype OcrRun = OcrRun(provider: bool, tesseract: Option<string>,
                           easyOcrAvailable: bool, easyOcr: Option<seq<string>>)

  /** Below this many characters (after stripping) Tesseract's text is
      considered too short and EasyOCR is tried. */
  const ShortText: nat := 10

  /** `_extract_text`: nothing without a provider or when Tesseract raises;
      otherwise Tesseract's text, replaced by EasyOCR's fragments joined with
      spaces only when Tesseract's is short and EasyOCR's is longer; the
      result is stripped. */
  function ExtractText(ocr: OcrRun): (r: string)
    ensures !ocr.provider || ocr.tesseract.None? ==> r == ""
    ensures r != [] ==> !PySpace(r[0]) && !PySpace(r[|r| - 1])
    ensures ocr.provider && ocr.tesseract.Some? ==>
              && |r| >= |PyStrip(ocr.tesseract.value)|
              && (|PyStrip(ocr.tesseract.value)| >= ShortText || !ocr.easyOcrAvailable || ocr.easyOcr.None? ==>
                    r == PyStrip(ocr.tesseract.value))
              && (r == PyStrip(ocr.tesseract.value) || (ocr.easyOcr.Some? && r == PyStrip(Join(ocr.easyOcr.value, " "))))
    ensures ocr.provider && ocr.tesseract.Some? && |PyStrip(ocr.tesseract.value)| < ShortText
            && ocr.easyOcrAvailable && ocr.easyOcr.Some? ==>
              var tess := PyStrip(ocr.tesseract.value);
              var easy := PyStrip(Join(ocr.easyOcr.value, " "));
              r == (if |easy| > |tess| then easy else tess)
  {
    if !ocr.provider || ocr.tesseract.None? then ""
    else
      var text := PyStrip(ocr.tesseract.value);
      if |text| < ShortText && ocr.easyOcrAvailable && ocr.easyOcr.Some? then
        Longer(text, PyStrip(Join(ocr.easyOcr.value, " ")))
      else text
  }

  /** The longer of the two texts, Tesseract's on a tie. */
  function Longer(tesseract: string, easy: string): (r: string)
    ensures r == tesseract || r == easy
    ensures |r| >= |tesseract| && |r| >= |easy|
    ensures |easy| <= |tesseract| ==> r == tesseract
  {
    if |easy| > |tesseract| then easy else tesseract
  }

  // ---------------------------------------------------------------------------
  // Keyword lists

  /** Some word of `words` occurs in `text`. */
  predicate MentionsAny(text: string, words: seq<string>) {
    exists k :: 0 <= k < |words| && Contains(text, words[k])
  }

  /** The position of the first word of `words` occurring in `text` (the
      source's `for ... if keyword in text: return` loops). */
  function FirstMentioned(text: string, words: seq<string>): (r: Option<nat>)
    ensures r.None? <==> !MentionsAny(text, words)
    ensures r.Some? ==> r.value < |words| && Contains(text, words[r.value])
                        && forall k :: 0 <= k < r.value ==> !Contains(text, words[k])
  {
    if words == [] then None
    else if Contains(text, words[0]) then Some(0)
    else
      var r := FirstMentioned(text, words[1..]);
      assert forall k :: 1 <= k < |words| ==> words[k] == words[1..][k - 1];
      if r.Some? then Some(r.value + 1) else None
  }

  // ---------------------------------------------------------------------------
  // The pattern matcher

  /** Character classes of the patterns: `\d`, `[\d,]`, `\w`, `\s` and the
      ideograph range `[一-龥]`.  Digits are ASCII digits; `\w` is
      ASCII letters and digits, `_` and the CJK unified ideographs. */
  datatype CharClass = Digit | DigitOrComma | Word | Space | Han

  predicate InClass(c: char, cls: CharClass) {
    match cls
    case Digit => IsDigit(c)
    case DigitOrComma => IsDigit(c) || c == ','
    case Word => IsDigit(c) || ('a' <= c <= 'z') || ('A' <= c <= 'Z') || c == '_' || ('\U{4E00}' <= c <= '\U{9FFF}')
    case Space => PySpace(c)
    case Han => '\U{4E00}' <= c <= '\U{9FA5}'
  }

  /** One step of a pattern: a literal, one character out of `chars`
      (optional for `[...]?`), or a greedy run of `least` to `most` (no upper
      bound when `None`) characters of a class. */
  datatype Step =
    | Lit(literal: string)
    | OneOf(chars: seq<char>, optional: bool)
    | Repeat(cls: CharClass, least: nat, most: Option<nat>)

  /** A pattern: the steps before its capture group and the group itself
      (the whole match when the source pattern has no group), and whether it
      is matched with `re.IGNORECASE`. */
  datatype Pattern = Pattern(prefix: seq<Step>, group: seq<Step>, ignoreCase: bool)

  /** The number of characters of class `cls` from `p` on, at most `most`. */
  function RunLength(t: string, p: nat, cls: CharClass, most: Option<nat>): (n: nat)
    requires p <= |t|
    ensures p + n <= |t|
    ensures most.Some? ==> n <= most.value
    ensures forall i :: p <= i < p + n ==> InClass(t[i], cls)
    decreases |t| - p
  {
    if p == |t| || !InClass(t[p], cls) || most == Some(0) then 0
    else 1 + RunLength(t, p + 1, cls, if most.Some? then Some(most.value - 1) else None)
  }

  function MatchStep(t: string, step: Step, p: nat): (r: Option<nat>)
    requires p <= |t|
    ensures r.Some? ==> p <= r.value <= |t|
    ensures r.Some? && step.Lit? ==> t[p..r.value] == step.literal
    ensures r.Some? && step.OneOf? ==> (r.value == p && step.optional) || (r.value == p + 1 && t[p] in step.chars)
    ensures r.Some? && step.Repeat? ==>
              && step.least <= r.value - p
              && (step.most.Some? ==> r.value - p <= step.most.value)
              && forall i :: p <= i < r.value ==> InClass(t[i], step.cls)
  {
    match step
    case Lit(s) => if OccursAt(t, s, p) then Some(p + |s|) else None
    case OneOf(cs, optional) => if p < |t| && t[p] in cs then Some(p + 1) else if optional then Some(p) else None
    case Repeat(cls, least, most) =>
      var n := RunLength(t, p, cls, most);
      if n >= least then Some(p + n) else None
  }

  /** Where the steps, matched one after the other from `p`, end. */
  function MatchSteps(t: string, steps: seq<Step>, p: nat): (r: Option<nat>)
    requires p <= |t|
    ensures r.Some? ==> p <= r.value <= |t|
    decreases |steps|
  {
    if steps == [] then Some(p)
    else
      match MatchStep(t, steps[0], p)
      case None => None
      case Some(q) => MatchSteps(t, steps[1..], q)
  }

  /** A match of the pattern starting at `p`: where its group starts and ends. */
  function MatchAt(t: string, pat: Pattern, p: nat): (r: Option<(nat, nat)>)
    requires p <= |t|
    ensures r.Some? ==> p <= r.value.0 <= r.value.1 <= |t|
    ensures r.Some? ==> MatchSteps(t, pat.group, r.value.0) == Some(r.value.1)
  {
    match MatchSteps(t, pat.prefix, p)
    case None => None
    case Some(a) =>
      match MatchSteps(t, pat.group, a)
      case None => None
      case Some(b) => Some((a, b))
  }

  /** The string the pattern is run on: ASCII-lower-cased under
      `re.IGNORECASE` (every literal of these patterns is lower case). */
  function Subject(text: string, pat: Pattern): (s: string)
    ensures |s| == |text|
  {
    if pat.ignoreCase then ToLower(text) else text
  }

  function Fold(c: char, ignoreCase: bool): char {
    if ignoreCase then LowerChar(c) else c
  }

  /** `c` is what the group captures, in the original text, from the match
      that starts at `q`. */
  predicate CapturedAt(t: string, text: string, pat: Pattern, q: nat, c: string)
    requires |text| == |t|
  {
    q <= |t| && MatchAt(t, pat, q).Some? && c == text[MatchAt(t, pat, q).value.0..MatchAt(t, pat, q).value.1]
  }

  /** The pattern matches nowhere from `p` on. */
  predicate NoMatchFrom(t: string, pat: Pattern, p: nat) {
    forall q :: p <= q <= |t| ==> MatchAt(t, pat, q).None?
  }

  /** `re.findall` from position `p`: scanning left to right, each match
      contributes its group and scanning resumes where it ended (one further
      on after an empty match). */
  function FindAll(t: string, text: string, pat: Pattern, p: nat): seq<string>
    requires |text| == |t|
    decreases |t| + 1 - p
  {
    if p > |t| then []
    else
      match MatchAt(t, pat, p)
      case None => FindAll(t, text, pat, p + 1)
      case Some((a, b)) => [text[a..b]] + FindAll(t, text, pat, if b > p then b else p + 1)
  }

  /** `findall` comes back empty exactly when the pattern matches nowhere. */
  lemma {:induction false} FindAllEmpty(t: string, text: string, pat: Pattern, p: nat)
    requires |text| == |t|
    ensures FindAll(t, text, pat, p) == [] <==> NoMatchFrom(t, pat, p)
    decreases |t| + 1 - p
  {
    if p > |t| {
      assert FindAll(t, text, pat, p) == [];
    } else if MatchAt(t, pat, p).None? {
      assert FindAll(t, text, pat, p) == FindAll(t, text, pat, p + 1);
      FindAllEmpty(t, text, pat, p + 1);
      NoMatchStep(t, pat, p);
    } else {
      assert |FindAll(t, text, pat, p)| > 0;
      assert !NoMatchFrom(t, pat, p);
    }
  }

  /** Where the pattern does not match at `p`, it matches nowhere from `p`
      on exactly when it matches nowhere from `p + 1` on. */
  lemma NoMatchStep(t: string, pat: Pattern, p: nat)
    requires p <= |t| && MatchAt(t, pat, p).None?
    ensures NoMatchFrom(t, pat, p) <==> NoMatchFrom(t, pat, p + 1)
  {
    if NoMatchFrom(t, pat, p + 1) {
      forall q | p <= q <= |t| ensures MatchAt(t, pat, q).None? {
        if q > p {
          assert p + 1 <= q;
        }
      }
    }
  }

  /** Every string `findall` returns is the group of a match. */
  lemma {:induction false} FindAllCaptures(t: string, text: string, pat: Pattern, p: nat)
    requires |text| == |t|
    ensures forall c :: c in FindAll(t, text, pat, p) ==> exists q :: CapturedAt(t, text, pat, q, c)
    decreases |t| + 1 - p
  {
    if p <= |t| {
      match MatchAt(t, pat, p)
      case None => FindAllCaptures(t, text, pat, p + 1);
      case Some((a, b)) =>
        FindAllCaptures(t, text, pat, if b > p then b else p + 1);
        assert CapturedAt(t, text, pat, p, text[a..b]);
    }
  }

  /** `c` is the group of some match of the pattern in `text`. */
  ghost predicate Captured(text: string, pat: Pattern, c: string) {
    exists q :: CapturedAt(Subject(text, pat), text, pat, q, c)
  }

  /** `re.findall(pattern, text)`, with the pattern's flags. */
  function FindAllIn(text: string, pat: Pattern): (r: seq<string>)
    ensures forall c :: c in r ==> Captured(text, pat, c)
    ensures r == [] <==> NoMatchFrom(Subject(text, pat), pat, 0)
  {
    FindAllCaptures(Subject(text, pat), text, pat, 0);
    FindAllEmpty(Subject(text, pat), text, pat, 0);
    FindAll(Subject(text, pat), text, pat, 0)
  }

  /** `re.search(pattern, text)` finds a match. */
  predicate Search(text: string, pat: Pattern) {
    var t := Subject(text, pat);
    exists q: nat | q <= |t| :: MatchAt(t, pat, q).Some?
  }

  // ---------------------------------------------------------------------------
  // Widths and characters of a match

  function StepMin(step: Step): nat {
    match step
    case Lit(s) => |s|
    case OneOf(_, optional) => if optional then 0 else 1
    case Repeat(_, least, _) => least
  }

  function StepMax(step: Step): Option<nat> {
    match step
    case Lit(s) => Some(|s|)
    case OneOf(_, _) => Some(1)
    case Repeat(_, _, most) => most
  }

  /** The fewest characters a match of the steps can span. */
  function MinWidth(steps: seq<Step>): nat {
    if steps == [] then 0 else StepMin(steps[0]) + MinWidth(steps[1..])
  }

  /** The most characters a match of the steps can span (`None`: no bound). */
  function MaxWidth(steps: seq<Step>): Option<nat> {
    if steps == [] then Some(0)
    else
      var rest := MaxWidth(steps[1..]);
      if StepMax(steps[0]).Some? && rest.Some? then Some(StepMax(steps[0]).value + rest.value) else None
  }

  predicate StepAllows(step: Step, c: char) {
    match step
    case Lit(s) => c in s
    case OneOf(cs, _) => c in cs
    case Repeat(cls, _, _) => InClass(c, cls)
  }

  /** Some step can consume `c`. */
  predicate Allows(steps: seq<Step>, c: char) {
    steps != [] && (StepAllows(steps[0], c) || Allows(steps[1..], c))
  }

  /** A match of the steps spans between `MinWidth` and `MaxWidth`
      characters, each one some step can consume. */
  lemma {:induction false} MatchWidth(t: string, steps: seq<Step>, p: nat)
    requires p <= |t| && MatchSteps(t, steps, p).Some?
    ensures MinWidth(steps) <= MatchSteps(t, steps, p).value - p
    ensures MaxWidth(steps).Some? ==> MatchSteps(t, steps, p).value - p <= MaxWidth(steps).value
    ensures forall i :: p <= i < MatchSteps(t, steps, p).value ==> Allows(steps, t[i])
    decreases |steps|
  {
    if steps != [] {
      var q := MatchStep(t, steps[0], p).value;
      var e := MatchSteps(t, steps, p).value;
      assert MatchSteps(t, steps[1..], q) == Some(e);
      MatchWidth(t, steps[1..], q);
      forall i | p <= i < q ensures StepAllows(steps[0], t[i]) {
        match steps[0]
        case Lit(s) => assert t[i] == t[p..q][i - p];
        case OneOf(cs, _) =>
        case Repeat(cls, _, _) =>
      }
    }
  }

  /** What a capture of the pattern in `text` can be: its width bounds, and
      each character, case-folded as the match saw it, is one the group can
      consume. */
  lemma CaptureWidth(text: string, pat: Pattern, c: string)
    requires Captured(text, pat, c)
    ensures MinWidth(pat.group) <= |c|
    ensures MaxWidth(pat.group).Some? ==> |c| <= MaxWidth(pat.group).value
    ensures forall i :: 0 <= i < |c| ==> Allows(pat.group, Fold(c[i], pat.ignoreCase))
  {
    var t := Subject(text, pat);
    var q :| CapturedAt(t, text, pat, q, c);
    var m := MatchAt(t, pat, q).value;
    MatchWidth(t, pat.group, m.0);
    SubjectFolds(text, pat, m.0, m.1);
  }

  /** The subject holds each character of the text, folded as the pattern
      says. */
  lemma SubjectFolds(text: string, pat: Pattern, a: nat, b: nat)
    requires a <= b <= |text|
    requires forall i :: a <= i < b ==> Allows(pat.group, Subject(text, pat)[i])
    ensures forall i :: 0 <= i < b - a ==> Allows(pat.group, Fold(text[a..b][i], pat.ignoreCase))
  {
    forall i | 0 <= i < b - a ensures Allows(pat.group, Fold(text[a..b][i], pat.ignoreCase)) {
      assert text[a..b][i] == text[a + i];
      assert Subject(text, pat)[a + i] == Fold(text[a + i], pat.ignoreCase);
    }
  }

  /** Lower-casing changes only ASCII capitals, which it turns into small
      letters. */
  lemma LowerKeepsNonLetters(c: char)
    requires !('a' <= LowerChar(c) <= 'z')
    ensures LowerChar(c) == c
  {
  }

  // ---------------------------------------------------------------------------
  // Recognising a financial document

  /** The words whose presence in the lower-cased text makes it a financial
      document, in the order they are tried. */
  const FinancialKeywords: seq<string> := [
    "银行", "支票", "汇票", "账单", "发票", "收据", "金额", "合计", "总计",
    "支付", "付款", "收款", "人民币", "美元", "欧元", "日元", "港币",
    "身份证", "护照", "驾驶证", "证件",
    "bank", "check", "invoice", "receipt", "amount", "total", "payment", "money"
  ]

  /** `\s*` */
  const Spaces: Step := Repeat(Space, 0, None)
  /** `[:：]` */
  const Colon: Step := OneOf(":：", false)
  /** `[\d,]+\.?\d*`, the shape of a written amount. */
  const AmountGroup: seq<Step> := [Repeat(DigitOrComma, 1, None), OneOf(".", true), Repeat(Digit, 0, None)]

  /** The layouts searched for when no keyword occurs: a number after
      "no." or "编号", a digit after a date label, an amount after an amount
      label or a currency sign. */
  const FinancialPatterns: seq<Pattern> := [
    Pattern([], [Lit("no"), OneOf(".:", false), Spaces, Repeat(Word, 1, None)], true),
    Pattern([], [Lit("编号"), Colon, Spaces, Repeat(Word, 1, None)], true),
    Pattern([], [Lit("date"), Colon, Spaces, Repeat(Digit, 1, Some(1))], true),
    Pattern([], [Lit("日期"), Colon, Spaces, Repeat(Digit, 1, Some(1))], true),
    Pattern([], [Lit("amount"), Colon, Spaces, Repeat(DigitOrComma, 1, Some(1))], true),
    Pattern([], [Lit("金额"), Colon, Spaces, Repeat(DigitOrComma, 1, Some(1))], true),
    Pattern([], [Lit("$"), Spaces] + AmountGroup, true),
    Pattern([], [Lit("¥"), Spaces] + AmountGroup, true),
    Pattern([], [Lit("￥"), Spaces] + AmountGroup, true)
  ]

  /** The position of the first pattern `re.search` finds in `text`. */
  function FirstFound(text: string, pats: seq<Pattern>): (r: Option<nat>)
    ensures r.None? <==> forall k :: 0 <= k < |pats| ==> !Search(text, pats[k])
    ensures r.Some? ==> r.value < |pats| && Search(text, pats[r.value])
  {
    if pats == [] then None
    else if FindAllIn(text, pats[0]) != [] then Some(0)
    else
      var r := FirstFound(text, pats[1..]);
      assert forall k :: 1 <= k < |pats| ==> pats[k] == pats[1..][k - 1];
      if r.Some? then Some(r.value + 1) else None
  }

  /** `_is_financial_document`: never for an empty text; otherwise when a
      keyword occurs in the lower-cased text, or one of the layouts is found
      in it. */
  function IsFinancialDocument(text: string): (r: bool)
    ensures text == [] ==> !r
    ensures r <==> text != [] && (MentionsAny(ToLower(text), FinancialKeywords)
                                  || exists k :: 0 <= k < |FinancialPatterns| && Search(ToLower(text), FinancialPatterns[k]))
  {
    text != [] && (FirstMentioned(ToLower(text), FinancialKeywords).Some?
                   || FirstFound(ToLower(text), FinancialPatterns).Some?)
  }

  /** Keywords are found whatever their case: "BANK" is one. */
  lemma UpperCaseKeywordFound()
    ensures IsFinancialDocument("BANK")
  {
    assert ToLower("BANK") == "bank";
    assert OccursAt(ToLower("BANK"), FinancialKeywords[21], 0);
  }

  // ---------------------------------------------------------------------------
  // Analysing a financial document

  /** The document types `_analyze_financial_document` tells apart, with
      the confidence each is reported with. */
  datatype DocumentType = Check | Invoice | Receipt | IdCard | Unknown {
    function Name(): string {
      match this
      case Check => "check"
      case Invoice => "invoice"
      case Receipt => "receipt"
      case IdCard => "id_card"
      case Unknown => "unknown"
    }

    function Confidence(): string {
      match this
      case IdCard => "high"
      case Unknown => "low"
      case _ => "medium"
    }
  }

  /** A document type and the words that announce it. */
  datatype TypeRule = TypeRule(kind: DocumentType, words: seq<string>)

  /** The rules in the order they are tried. */
  const TypeRules: seq<TypeRule> := [
    TypeRule(Check, ["支票", "cheque"]),
    TypeRule(Invoice, ["发票", "invoice"]),
    TypeRule(Receipt, ["收据", "receipt"]),
    TypeRule(IdCard, ["身份证", "id card"])
  ]

  /** The position of the first rule one of whose words occurs in `text`. */
  function FirstTypeRule(text: string, rules: seq<TypeRule>): (r: Option<nat>)
    ensures r.None? <==> forall k :: 0 <= k < |rules| ==> !MentionsAny(text, rules[k].words)
    ensures r.Some? ==> r.value < |rules| && MentionsAny(text, rules[r.value].words)
                        && forall k :: 0 <= k < r.value ==> !MentionsAny(text, rules[k].words)
  {
    if rules == [] then None
    else if FirstMentioned(text, rules[0].words).Some? then Some(0)
    else
      var r := FirstTypeRule(text, rules[1..]);
      assert forall k :: 1 <= k < |rules| ==> rules[k] == rules[1..][k - 1];
      if r.Some? then Some(r.value + 1) else None
  }

  /** The document type: that of the first rule with a word in the
      lower-cased text, else unknown. */
  function ClassifyDocument(text: string): (r: DocumentType)
    ensures r == Unknown <==> forall k :: 0 <= k < |TypeRules| ==> !MentionsAny(ToLower(text), TypeRules[k].words)
    ensures r != Unknown ==> exists k :: 0 <= k < |TypeRules| && TypeRules[k].kind == r
                                         && MentionsAny(ToLower(text), TypeRules[k].words)
                                         && forall j :: 0 <= j < k ==> !MentionsAny(ToLower(text), TypeRules[j].words)
  {
    var first := FirstTypeRule(ToLower(text), TypeRules);
    assert forall k :: 0 <= k < |TypeRules| ==> TypeRules[k].kind != Unknown;
    if first.Some? then TypeRules[first.value].kind else Unknown
  }

  /** An identity card is reported with high confidence only when no
      cheque, invoice or receipt word occurs; the other three types are
      reported with medium confidence and an unrecognised one with low. */
  lemma ConfidenceOfType(text: string)
    ensures ClassifyDocument(text) == IdCard ==>
              && ClassifyDocument(text).Confidence() == "high"
              && !MentionsAny(ToLower(text), ["支票", "cheque"])
              && !MentionsAny(ToLower(text), ["发票", "invoice"])
              && !MentionsAny(ToLower(text), ["收据", "receipt"])
              && MentionsAny(ToLower(text), ["身份证", "id card"])
    ensures ClassifyDocument(text) in {Check, Invoice, Receipt} <==> ClassifyDocument(text).Confidence() == "medium"
    ensures ClassifyDocument(text) == Unknown <==> ClassifyDocument(text).Confidence() == "low"
  {
    if ClassifyDocument(text) == IdCard {
      var k :| 0 <= k < |TypeRules| && TypeRules[k].kind == IdCard
               && MentionsAny(ToLower(text), TypeRules[k].words)
               && forall j :: 0 <= j < k ==> !MentionsAny(ToLower(text), TypeRules[j].words);
      assert k == 3;
      assert !MentionsAny(ToLower(text), TypeRules[0].words);
      assert !MentionsAny(ToLower(text), TypeRules[1].words);
      assert !MentionsAny(ToLower(text), TypeRules[2].words);
    }
  }

  // Amounts

  /** The label before each amount pattern, in the order they are tried:
      the yuan signs, the dollar sign, the labels "金额", "合计", "total" and
      "amount" with a colon, and "人民币". */
  const AmountLabels: seq<seq<Step>> := [
    [Lit("¥")], [Lit("￥")], [Lit("$")],
    [Lit("金额"), Colon], [Lit("合计"), Colon], [Lit("total"), Colon], [Lit("amount"), Colon],
    [Lit("人民币")]
  ]

  /** `label\s*([\d,]+\.?\d*)`, matched ignoring case. */
  function AmountPattern(marker: seq<Step>): Pattern {
    Pattern(marker + [Spaces], AmountGroup, true)
  }

  /** `s.replace(',', '')`. */
  function RemoveCommas(s: string): string {
    if s == [] then [] else (if s[0] == ',' then [] else [s[0]]) + RemoveCommas(s[1..])
  }

  lemma {:induction false} RemoveCommasAppend(a: string, b: string)
    ensures RemoveCommas(a + b) == RemoveCommas(a) + RemoveCommas(b)
    decreases |a|
  {
    if a == [] {
      assert a + b == b;
    } else {
      assert (a + b)[0] == a[0];
      assert (a + b)[1..] == a[1..] + b;
      RemoveCommasAppend(a[1..], b);
    }
  }

  /** Removing the commas from digits and commas leaves digits. */
  lemma {:induction false} RemoveCommasDigits(x: string)
    requires forall i :: 0 <= i < |x| ==> IsDigit(x[i]) || x[i] == ','
    ensures forall i :: 0 <= i < |RemoveCommas(x)| ==> IsDigit(RemoveCommas(x)[i])
    decreases |x|
  {
    if x != [] {
      RemoveCommasDigits(x[1..]);
    }
  }

  /** The found strings without their commas, those left empty dropped. */
  function CleanAmounts(found: seq<string>): seq<string> {
    if found == [] then []
    else
      var n := |found| - 1;
      var amount := RemoveCommas(found[n]);
      CleanAmounts(found[..n]) + (if amount != [] then [amount] else [])
  }

  /** The amounts found by the first `n` amount patterns, pattern by pattern. */
  function AmountsUpTo(text: string, n: nat): seq<string>
    requires n <= |AmountLabels|
  {
    if n == 0 then []
    else AmountsUpTo(text, n - 1) + CleanAmounts(FindAllIn(text, AmountPattern(AmountLabels[n - 1])))
  }

  /** Digits with at most one decimal point. */
  predicate AmountShape(s: string) {
    && (forall i :: 0 <= i < |s| ==> IsDigit(s[i]) || s[i] == '.')
    && (forall i, j :: 0 <= i < j < |s| && s[i] == '.' ==> s[j] != '.')
  }

  /** The characters of a match of `AmountGroup`: a run of digits and
      commas, perhaps a point, then digits. */
  lemma AmountParts(t: string, a: nat) returns (j1: nat, j2: nat)
    requires a <= |t| && MatchSteps(t, AmountGroup, a).Some?
    ensures a < j1 <= j2 <= MatchSteps(t, AmountGroup, a).value
    ensures forall i :: a <= i < j1 ==> IsDigit(t[i]) || t[i] == ','
    ensures j2 == j1 || (j2 == j1 + 1 && t[j1] == '.')
    ensures forall i :: j2 <= i < MatchSteps(t, AmountGroup, a).value ==> IsDigit(t[i])
  {
    var b := MatchSteps(t, AmountGroup, a).value;
    j1 := MatchStep(t, AmountGroup[0], a).value;
    assert MatchSteps(t, AmountGroup[1..], j1) == Some(b);
    j2 := MatchStep(t, AmountGroup[1], j1).value;
    assert AmountGroup[1..][1..] == [AmountGroup[2]];
    assert MatchSteps(t, [AmountGroup[2]], j2) == Some(b);
    assert MatchStep(t, AmountGroup[2], j2) == Some(b);
  }

  lemma {:induction false} RemoveCommasKeeps(s: string)
    requires forall i :: 0 <= i < |s| ==> s[i] != ','
    ensures RemoveCommas(s) == s
    decreases |s|
  {
    if s != [] {
      RemoveCommasKeeps(s[1..]);
      assert s == [s[0]] + s[1..];
    }
  }

  /** Where lower-casing left no small letter, the text is unchanged. */
  lemma {:induction false} LowerUnchanged(text: string, a: nat, b: nat)
    requires a <= b <= |text|
    requires forall i :: a <= i < b ==> !('a' <= ToLower(text)[i] <= 'z')
    ensures text[a..b] == ToLower(text)[a..b]
  {
    forall i | a <= i < b ensures text[i] == ToLower(text)[i] {
      LowerKeepsNonLetters(text[i]);
    }
  }

  /** Digits, perhaps a point, then digits: only digits and points. */
  lemma DigitsPointDigitsChars(p: string, d: string, y: string)
    requires forall i :: 0 <= i < |p| ==> IsDigit(p[i])
    requires d == [] || d == "."
    requires forall i :: 0 <= i < |y| ==> IsDigit(y[i])
    ensures forall i :: 0 <= i < |p + d + y| ==> IsDigit((p + d + y)[i]) || (p + d + y)[i] == '.'
  {
    var s := p + d + y;
    forall i | 0 <= i < |s| ensures IsDigit(s[i]) || s[i] == '.' {
      if i < |p| {
        assert s[i] == p[i];
      } else if i >= |p| + |d| {
        assert s[i] == y[i - |p| - |d|];
      }
    }
  }

  /** Digits, perhaps a point, then digits: at most one point. */
  lemma DigitsPointDigitsOnePoint(p: string, d: string, y: string)
    requires forall i :: 0 <= i < |p| ==> IsDigit(p[i])
    requires d == [] || d == "."
    requires forall i :: 0 <= i < |y| ==> IsDigit(y[i])
    ensures forall i, j :: 0 <= i < j < |p + d + y| && (p + d + y)[i] == '.' ==> (p + d + y)[j] != '.'
  {
    var s := p + d + y;
    forall i, j | 0 <= i < j < |s| && s[i] == '.' ensures s[j] != '.' {
      assert s[j] == y[j - |p| - |d|];
    }
  }

  /** Only the commas of the leading run are removed. */
  lemma RemoveCommasLead(x: string, d: string, y: string)
    requires d == [] || d == "."
    requires forall i :: 0 <= i < |y| ==> IsDigit(y[i])
    ensures RemoveCommas(x + d + y) == RemoveCommas(x) + d + y
  {
    RemoveCommasAppend(x + d, y);
    RemoveCommasAppend(x, d);
    RemoveCommasKeeps(d);
    RemoveCommasKeeps(y);
  }

  /** Digits and commas, perhaps a point, then digits: without the commas,
      digits with at most one decimal point. */
  lemma AmountPartsShape(x: string, d: string, y: string)
    requires forall i :: 0 <= i < |x| ==> IsDigit(x[i]) || x[i] == ','
    requires d == [] || d == "."
    requires forall i :: 0 <= i < |y| ==> IsDigit(y[i])
    ensures AmountShape(RemoveCommas(x + d + y))
  {
    RemoveCommasLead(x, d, y);
    RemoveCommasDigits(x);
    DigitsPointDigitsChars(RemoveCommas(x), d, y);
    DigitsPointDigitsOnePoint(RemoveCommas(x), d, y);
  }

  /** The match a capture comes from: where its group starts and ends in
      the text the pattern ran on. */
  lemma CaptureBounds(text: string, pat: Pattern, c: string) returns (a: nat, b: nat)
    requires Captured(text, pat, c)
    ensures a <= b <= |text| && c == text[a..b]
    ensures MatchSteps(Subject(text, pat), pat.group, a) == Some(b)
  {
    var t := Subject(text, pat);
    var q :| CapturedAt(t, text, pat, q, c);
    a, b := MatchAt(t, pat, q).value.0, MatchAt(t, pat, q).value.1;
  }

  /** A match of `AmountGroup` holds only digits, commas and points. */
  lemma AmountMatchChars(t: string, a: nat, b: nat)
    requires a <= |t| && MatchSteps(t, AmountGroup, a) == Some(b)
    ensures a <= b <= |t|
    ensures forall i :: a <= i < b ==> IsDigit(t[i]) || t[i] == ',' || t[i] == '.'
  {
    var j1, j2 := AmountParts(t, a);
  }

  /** Digits and commas, then perhaps a point, then digits, read as one
      stretch of the text: without its commas, the shape of an amount. */
  lemma StretchShape(t: string, a: nat, j1: nat, j2: nat, b: nat)
    requires a <= j1 <= j2 <= b <= |t|
    requires forall i :: a <= i < j1 ==> IsDigit(t[i]) || t[i] == ','
    requires j2 == j1 || (j2 == j1 + 1 && t[j1] == '.')
    requires forall i :: j2 <= i < b ==> IsDigit(t[i])
    ensures AmountShape(RemoveCommas(t[a..b]))
  {
    var x, d, y := t[a..j1], t[j1..j2], t[j2..b];
    assert t[a..b] == x + d + y;
    assert d == [] || d == ".";
    AmountPartsShape(x, d, y);
  }

  /** A match of `AmountGroup`, without its commas, has the shape of an
      amount. */
  lemma AmountMatchShape(t: string, a: nat, b: nat)
    requires a <= |t| && MatchSteps(t, AmountGroup, a) == Some(b)
    ensures a <= b <= |t| && AmountShape(RemoveCommas(t[a..b]))
  {
    var j1, j2 := AmountParts(t, a);
    StretchShape(t, a, j1, j2, b);
  }

  /** Every amount pattern's capture, once its commas are removed, is
      digits with at most one decimal point. */
  lemma AmountCaptureShape(text: string, marker: seq<Step>, c: string)
    requires Captured(text, AmountPattern(marker), c)
    ensures AmountShape(RemoveCommas(c))
  {
    var a, b := CaptureBounds(text, AmountPattern(marker), c);
    AmountMatchChars(ToLower(text), a, b);
    AmountMatchShape(ToLower(text), a, b);
    LowerUnchanged(text, a, b);
  }

  lemma {:induction false} CleanAmountsShaped(text: string, marker: seq<Step>, found: seq<string>)
    requires forall c :: c in found ==> Captured(text, AmountPattern(marker), c)
    ensures forall x :: x in CleanAmounts(found) ==> x != [] && AmountShape(x)
    decreases |found|
  {
    if found != [] {
      var n := |found| - 1;
      assert forall c :: c in found[..n] ==> c in found;
      CleanAmountsShaped(text, marker, found[..n]);
      var amount := RemoveCommas(found[n]);
      AmountCaptureShape(text, marker, found[n]);
      assert CleanAmounts(found) == CleanAmounts(found[..n]) + (if amount != [] then [amount] else []);
    }
  }

  /** Every amount reported is a non-empty string of digits with at most
      one decimal point. */
  lemma {:induction false} AmountsShaped(text: string, n: nat)
    requires n <= |AmountLabels|
    ensures forall x :: x in AmountsUpTo(text, n) ==> x != [] && AmountShape(x)
  {
    if n > 0 {
      AmountsShaped(text, n - 1);
      CleanAmountsShaped(text, AmountLabels[n - 1], FindAllIn(text, AmountPattern(AmountLabels[n - 1])));
    }
  }

  // Dates

  /** `\d{4}[-/]\d{1,2}[-/]\d{1,2}` */
  const YearFirst: seq<Step> := [Repeat(Digit, 4, Some(4)), OneOf("-/", false), Repeat(Digit, 1, Some(2)),
                                 OneOf("-/", false), Repeat(Digit, 1, Some(2))]
  /** `\d{1,2}[-/]\d{1,2}[-/]\d{4}` */
  const YearLast: seq<Step> := [Repeat(Digit, 1, Some(2)), OneOf("-/", false), Repeat(Digit, 1, Some(2)),
                                OneOf("-/", false), Repeat(Digit, 4, Some(4))]

  /** The date patterns in the order they are tried: a year-first date, a
      year-last date, and a year-first date after "日期" or "date" and a
      colon (those report the date alone). */
  const DatePatterns: seq<Pattern> := [
    Pattern([], YearFirst, true),
    Pattern([], YearLast, true),
    Pattern([Lit("日期"), Colon, Spaces], YearFirst, true),
    Pattern([Lit("date"), Colon, Spaces], YearFirst, true)
  ]

  /** `re.findall` of the `k`th date pattern. */
  function DatesOf(text: string, k: nat): seq<string>
    requires k < |DatePatterns|
  {
    FindAllIn(text, DatePatterns[k])
  }

  /** The dates found by the first `n` date patterns, pattern by pattern. */
  function DatesUpTo(text: string, n: nat): seq<string>
    requires n <= |DatePatterns|
  {
    if n == 0 then [] else DatesUpTo(text, n - 1) + DatesOf(text, n - 1)
  }

  predicate DateChar(c: char) { IsDigit(c) || c == '-' || c == '/' }

  /** Eight to ten characters, each a digit, `-` or `/`. */
  predicate IsDate(s: string) {
    8 <= |s| <= 10 && forall i :: 0 <= i < |s| ==> DateChar(s[i])
  }

  /** A character some step can consume is one a particular step can. */
  lemma {:induction false} AllowedBySome(steps: seq<Step>, c: char) returns (k: nat)
    requires Allows(steps, c)
    ensures k < |steps| && StepAllows(steps[k], c)
    decreases |steps|
  {
    if StepAllows(steps[0], c) {
      k := 0;
    } else {
      k := AllowedBySome(steps[1..], c);
      k := k + 1;
    }
  }

  /** A step of the date patterns: a run of digits or one separator. */
  predicate DateStep(step: Step) {
    (step.Repeat? && step.cls == Digit) || step == OneOf("-/", false)
  }

  lemma DateStepChars(steps: seq<Step>, c: char)
    requires forall k :: 0 <= k < |steps| ==> DateStep(steps[k])
    requires Allows(steps, c)
    ensures DateChar(c)
  {
    var k := AllowedBySome(steps, c);
    assert DateStep(steps[k]);
  }

  /** Both date layouts span eight to ten characters. */
  lemma DateWidths()
    ensures MinWidth(YearFirst) == 8 && MaxWidth(YearFirst) == Some(10)
    ensures MinWidth(YearLast) == 8 && MaxWidth(YearLast) == Some(10)
  {
  }

  /** Both date layouts consume only digits and separators. */
  lemma DateChars(c: char)
    ensures Allows(YearFirst, c) ==> DateChar(c)
    ensures Allows(YearLast, c) ==> DateChar(c)
  {
    if Allows(YearFirst, c) {
      DateStepChars(YearFirst, c);
    }
    if Allows(YearLast, c) {
      DateStepChars(YearLast, c);
    }
  }

  lemma DateCaptureShape(text: string, k: nat, c: string)
    requires k < |DatePatterns|
    requires Captured(text, DatePatterns[k], c)
    ensures IsDate(c)
  {
    var pat := DatePatterns[k];
    assert pat.group == YearFirst || pat.group == YearLast;
    assert pat.ignoreCase;
    CaptureWidth(text, pat, c);
    forall i | 0 <= i < |c| ensures DateChar(c[i]) {
      DateChars(LowerChar(c[i]));
      LowerKeepsNonLetters(c[i]);
    }
    DateWidths();
  }

  /** Every date reported is eight to ten digits and separators. */
  lemma {:induction false} DatesShaped(text: string, n: nat)
    requires n <= |DatePatterns|
    ensures forall d :: d in DatesUpTo(text, n) ==> IsDate(d)
  {
    if n > 0 {
      DatesShaped(text, n - 1);
      var found := FindAllIn(text, DatePatterns[n - 1]);
      forall d | d in found ensures IsDate(d) {
        DateCaptureShape(text, n - 1, d);
      }
    }
  }

  // Parties

  /** The words that mark a line as naming a party (compared
      case-sensitively). */
  const PartyKeywords: seq<string> := ["银行", "公司", "姓名", "name", "account"]

  predicate NamesParty(line: string) {
    MentionsAny(line, PartyKeywords)
  }

  /** Each line stripped. */
  function StripLines(lines: seq<string>): (r: seq<string>)
    ensures |r| == |lines|
    ensures forall k :: 0 <= k < |lines| ==> r[k] == PyStrip(lines[k])
  {
    if lines == [] then []
    else StripLines(lines[..|lines| - 1]) + [PyStrip(lines[|lines| - 1])]
  }

  /** The stripped lines (split at `\n`) that name a party, in line order. */
  function Parties(text: string): seq<string> {
    StripLines(Seqs.Filter(Split(text, "\n"), NamesParty))
  }

  /** The analysis `_analyze_financial_document` builds for a text. */
  datatype Analysis = Analysis(documentType: string, amountsFound: seq<string>, datesFound: seq<string>,
                               partiesInvolved: seq<string>, confidence: string)

  function AnalysisOf(text: string): Analysis {
    var kind := ClassifyDocument(text);
    Analysis(kind.Name(), AmountsUpTo(text, |AmountLabels|), DatesUpTo(text, |DatePatterns|), Parties(text),
             kind.Confidence())
  }

  /** The inner amount loop: each match without its commas, kept when
      something is left. */
  method CleanMatches(matches: seq<string>) returns (amounts: seq<string>)
    ensures amounts == CleanAmounts(matches)
    ensures |amounts| <= |matches|
  {
    amounts := [];
    var j := 0;
    while j < |matches|
      invariant 0 <= j <= |matches|
      invariant amounts == CleanAmounts(matches[..j])
      invariant |amounts| <= j
    {
      var amount := RemoveCommas(matches[j]);
      if amount != [] {
        amounts := amounts + [amount];
      }
      assert matches[..j + 1][..j] == matches[..j];
      j := j + 1;
    }
    assert matches[..j] == matches;
  }

  /** The amount loop: each amount pattern's `findall` in turn, each match
      without its commas, kept when something is left. */
  method CollectAmounts(text: string) returns (amounts: seq<string>)
    ensures amounts == AmountsUpTo(text, |AmountLabels|)
    ensures forall x :: x in amounts ==> x != [] && AmountShape(x)
  {
    amounts := [];
    for i := 0 to |AmountLabels|
      invariant amounts == AmountsUpTo(text, i)
    {
      var cleaned := CleanMatches(FindAllIn(text, AmountPattern(AmountLabels[i])));
      amounts := amounts + cleaned;
    }
    AmountsShaped(text, |AmountLabels|);
  }

  /** The date loop: each date pattern's `findall` appended in turn. */
  method CollectDates(text: string) returns (dates: seq<string>)
    ensures dates == DatesUpTo(text, |DatePatterns|)
    ensures forall d :: d in dates ==> IsDate(d)
  {
    dates := [];
    for i := 0 to |DatePatterns|
      invariant dates == DatesUpTo(text, i)
    {
      dates := dates + DatesOf(text, i);
    }
    DatesShaped(text, |DatePatterns|);
  }

  /** The party loop: every line that names a party, stripped, in order. */
  method CollectParties(text: string) returns (parties: seq<string>)
    ensures parties == Parties(text)
    ensures |parties| <= |Split(text, "\n")|
    ensures forall k :: 0 <= k < |parties| ==> exists line :: line in Split(text, "\n") && NamesParty(line) && parties[k] == PyStrip(line)
  {
    var lines := Split(text, "\n");
    parties := [];
    var i := 0;
    while i < |lines|
      invariant 0 <= i <= |lines|
      invariant parties == StripLines(Seqs.Filter(lines[..i], NamesParty))
    {
      assert lines[..i + 1] == lines[..i] + [lines[i]];
      Seqs.FilterAppend(lines[..i], [lines[i]], NamesParty);
      assert [lines[i]][1..] == [];
      if NamesParty(lines[i]) {
        parties := parties + [PyStrip(lines[i])];
      }
      i := i + 1;
    }
    assert lines[..i] == lines;
    var kept := Seqs.Filter(lines, NamesParty);
    forall k | 0 <= k < |parties|
      ensures exists line :: line in lines && NamesParty(line) && parties[k] == PyStrip(line)
    {
      assert kept[k] in lines && NamesParty(kept[k]);
    }
  }

  /** `_analyze_financial_document`: the type and confidence of the first
      matching rule; the amounts of each amount pattern in turn, commas
      removed and empty ones dropped; the dates of each date pattern in
      turn; and the stripped lines naming a party. */
  method AnalyzeFinancialDocument(text: string) returns (a: Analysis)
    ensures a == AnalysisOf(text)
    ensures forall x :: x in a.amountsFound ==> x != [] && AmountShape(x)
    ensures forall d :: d in a.datesFound ==> IsDate(d)
    ensures forall k :: 0 <= k < |a.partiesInvolved| ==>
              exists line :: line in Split(text, "\n") && NamesParty(line) && a.partiesInvolved[k] == PyStrip(line)
  {
    var kind := ClassifyDocument(text);
    var amounts := CollectAmounts(text);
    var dates := CollectDates(text);
    var parties := CollectParties(text);
    a := Analysis(kind.Name(), amounts, dates, parties, kind.Confidence());
  }

  // ---------------------------------------------------------------------------
  // Identity cards

  const IdLength: nat := 18

  /** The identity-number pattern `(\d{6})(19|20)(\d{2})(0[1-9]|1[0-2])
      (0[1-9]|[12]\d|3[01])(\d{3})(\d|X|x)` on an 18-character window:
      six digits, a century of 19 or 20, two digits, a month 01-12, a day
      01-31, three digits, then a digit or X.  No check digit is computed. */
  predicate IdWindow(w: string)
    requires |w| == IdLength
  {
    && (forall i :: 0 <= i < 6 ==> IsDigit(w[i]))
    && ((w[6] == '1' && w[7] == '9') || (w[6] == '2' && w[7] == '0'))
    && IsDigit(w[8]) && IsDigit(w[9])
    && ((w[10] == '0' && '1' <= w[11] <= '9') || (w[10] == '1' && '0' <= w[11] <= '2'))
    && ((w[12] == '0' && '1' <= w[13] <= '9') || ((w[12] == '1' || w[12] == '2') && IsDigit(w[13]))
        || (w[12] == '3' && (w[13] == '0' || w[13] == '1')))
    && IsDigit(w[14]) && IsDigit(w[15]) && IsDigit(w[16])
    && (IsDigit(w[17]) || w[17] == 'X' || w[17] == 'x')
  }

  /** An identity number starts at `p`. */
  predicate IdAt(t: string, p: nat) {
    p + IdLength <= |t| && IdWindow(t[p..p + IdLength])
  }

  /** `re.findall` of the identity pattern from `p`, each match's groups
      joined back into the 18 characters matched.  The result is empty
      exactly when no window from `p` on has the shape. */
  function FindIds(t: string, p: nat): (r: seq<string>)
    ensures forall k :: 0 <= k < |r| ==> |r[k]| == IdLength && IdWindow(r[k])
    ensures forall k :: 0 <= k < |r| ==> exists q :: p <= q && IdAt(t, q) && r[k] == t[q..q + IdLength]
    ensures r == [] <==> forall q :: p <= q ==> !IdAt(t, q)
    decreases |t| - p
  {
    if p + IdLength > |t| then []
    else if IdAt(t, p) then [t[p..p + IdLength]] + FindIds(t, p + IdLength)
    else FindIds(t, p + 1)
  }

  /** `_extract_chinese_name`'s pattern: "姓名", an optional colon, spaces,
      then two to four ideographs. */
  const NamePattern: Pattern := Pattern([Lit("姓名"), OneOf(":：", true), Spaces], [Repeat(Han, 2, Some(4))], false)

  /** Every name reported is two to four ideographs. */
  lemma NamesShaped(text: string)
    ensures forall n :: n in FindAllIn(text, NamePattern) ==>
              2 <= |n| <= 4 && forall i :: 0 <= i < |n| ==> InClass(n[i], Han)
  {
    forall n | n in FindAllIn(text, NamePattern)
      ensures 2 <= |n| <= 4 && forall i :: 0 <= i < |n| ==> InClass(n[i], Han)
    {
      CaptureWidth(text, NamePattern, n);
      forall i | 0 <= i < |n| ensures InClass(n[i], Han) {
        NameGroup(n[i]);
      }
    }
  }

  lemma NameGroup(c: char)
    ensures MinWidth(NamePattern.group) == 2 && MaxWidth(NamePattern.group) == Some(4)
    ensures Allows(NamePattern.group, Fold(c, NamePattern.ignoreCase)) ==> InClass(c, Han)
  {
    var g := NamePattern.group;
    assert g[1..] == [];
    assert !Allows(g[1..], c);
    assert g[0] == Repeat(Han, 2, Some(4));
  }

  /** The most text `validate_id_card` reports back. */
  const ReportedText: nat := 500

  datatype IdValidation =
    | IdChecked(isValid: bool, idNumbersFound: seq<string>, nameFound: seq<string>, textContent: string)
    | IdError

  /** What `validate_id_card` reports for an OCR text: valid exactly when an
      identity number occurs in it; the numbers are the 18-character windows
      `findall` takes from the text, each of the identity shape; the names
      are the two to four ideographs after "姓名"; and the text comes back
      cut to its first 500 characters. */
  function IdCheckOf(text: string): (r: IdValidation)
    ensures r.IdChecked?
    ensures r.isValid <==> exists p :: IdAt(text, p)
    ensures r.idNumbersFound == FindIds(text, 0)
    ensures forall k :: 0 <= k < |r.idNumbersFound| ==> |r.idNumbersFound[k]| == IdLength && IdWindow(r.idNumbersFound[k])
    ensures forall k :: 0 <= k < |r.idNumbersFound| ==>
              exists q: nat :: IdAt(text, q) && r.idNumbersFound[k] == text[q..q + IdLength]
    ensures r.nameFound == FindAllIn(text, NamePattern)
    ensures forall n :: n in r.nameFound ==> 2 <= |n| <= 4 && forall i :: 0 <= i < |n| ==> InClass(n[i], Han)
    ensures |r.textContent| == (if |text| <= ReportedText then |text| else ReportedText)
    ensures r.textContent == text[..|r.textContent|]
  {
    NamesShaped(text);
    var ids := FindIds(text, 0);
    IdChecked(ids != [], ids, FindAllIn(text, NamePattern), Seqs.Take(text, ReportedText))
  }

  /** `validate_id_card` on an image (`None` when it cannot be opened, which
      the handler reports as an error) and what OCR made of it: the report
      for the extracted text. */
  function ValidateIdCard(image: Option<OcrRun>): (r: IdValidation)
    ensures image.None? <==> r == IdError
    ensures image.Some? ==> r == IdCheckOf(ExtractText(image.value))
    ensures image.Some? ==> (r.isValid <==> exists p :: IdAt(ExtractText(image.value), p))
  {
    if image.None? then IdError else IdCheckOf(ExtractText(image.value))
  }

  // ---------------------------------------------------------------------------
  // Analysing an image

  datatype ImageReport =
    | ImageReport(size: Size, textContent: string, isFinancialDocument: bool, analysis: Option<Analysis>)
    | ImageError

  /** `analyze_image` on an image (its size, `None` when it cannot be
      opened) and what OCR made of the pre-processed image: the original
      size, the extracted text, whether it is a financial document, and an
      analysis exactly when it is one. */
  method AnalyzeImage(image: Option<Size>, ocr: OcrRun) returns (r: ImageReport)
    ensures image.None? ==> r == ImageError
    ensures image.Some? ==>
              && r.ImageReport?
              && r.size == image.value
              && r.textContent == ExtractText(ocr)
              && r.isFinancialDocument == IsFinancialDocument(r.textContent)
              && (r.analysis.Some? <==> r.isFinancialDocument)
              && (r.analysis.Some? ==> r.analysis.value == AnalysisOf(r.textContent))
  {
    if image.None? {
      return ImageError;
    }
    var text := ExtractText(ocr);
    var financial := IsFinancialDocument(text);
    var analysis: Option<Analysis> := None;
    if financial {
      var a := AnalyzeFinancialDocument(text);
      analysis := Some(a);
    }
    r := ImageReport(image.value, text, financial, analysis);
  }
}
