/**
 The notification message built from a publish event: the fixed recipients,
 the truncated subject line, the label tags and the fallback texts of the
 optional fields. The HTML boilerplate around these fragments is constant and
 is represented only by the fragments it interpolates.
 */
module EmailTemplate {
  import opened JsStrings

  /** The request body fields the message is built from. */
  datatype Payload = Payload(
    title: Field,
    content: Field,
    labels: Field,
    description: Field,
    focusKeyword: Field,
    name: Field)

  // ---------------------------------------------------------------------------
  // Subject

  /** "📝 ": U+1F4DD as the surrogate pair D83D DCDD, then a space. */
  const SubjectPrefix: Str := [0xD83D, 0xDCDD, 0x20]

  /** Code units of the title kept in the subject. */
  const SubjectLimit: nat := 60

  const Ellipsis: Str := Lit("...")

  /** `s.substring(start, end)`: both bounds clamped to `[0, |s|]`, then
      swapped when the start lies after the end. */
  function Substring(s: Str, start: int, end: int): (r: Str)
    ensures 0 <= start <= end <= |s| ==> r == s[start..end]
    ensures 0 <= end <= start <= |s| ==> r == s[end..start]
    ensures 0 <= start <= |s| <= end ==> r == s[start..]
    ensures 0 <= end <= |s| <= start ==> r == s[end..]
    ensures end <= 0 <= start <= |s| ==> r == s[..start]
    ensures start <= 0 <= end <= |s| ==> r == s[..end]
    ensures start <= 0 && |s| <= end ==> r == s
    ensures end <= 0 && |s| <= start ==> r == s
    ensures |s| <= start && |s| <= end ==> r == []
    ensures start <= 0 && end <= 0 ==> r == []
    ensures |r| <= |s|
  {
    var a := if start < 0 then 0 else if start > |s| then |s| else start;
    var b := if end < 0 then 0 else if end > |s| then |s| else end;
    if a <= b then s[a..b] else s[b..a]
  }

  /** The subject after its prefix: the first 60 units of the title, and
      "..." when something was cut off. */
  function SubjectBody(title: Str): (r: Str)
    ensures |title| <= SubjectLimit ==> r == title
    ensures |title| > SubjectLimit ==> r == title[..SubjectLimit] + Ellipsis
    ensures |r| <= SubjectLimit + |Ellipsis|
  {
    Substring(title, 0, SubjectLimit) + (if |title| > SubjectLimit then Ellipsis else [])
  }

  function Subject(title: Str): (r: Str)
    ensures |SubjectPrefix| <= |r| <= |SubjectPrefix| + SubjectLimit + |Ellipsis|
    ensures |title| <= SubjectLimit ==> r == SubjectPrefix + title
    ensures |title| > SubjectLimit ==> r == SubjectPrefix + title[..SubjectLimit] + Ellipsis
  {
    SubjectPrefix + SubjectBody(title)
  }

  /** The title comes back unchanged from `SubjectBody` exactly when it fits,
      or when it already has the shape of a truncated title (60 units and "..."). */
  lemma SubjectBodyFixedPoints(title: Str)
    ensures SubjectBody(title) == title
        <==> |title| <= SubjectLimit
             || (|title| == SubjectLimit + |Ellipsis| && title[SubjectLimit..] == Ellipsis)
  {
  }

  /** Building the subject body of a subject body changes nothing. */
  lemma SubjectBodyIdempotent(title: Str)
    ensures SubjectBody(SubjectBody(title)) == SubjectBody(title)
  {
  }

  /** Two long titles that agree on their first 60 units get the same subject. */
  lemma LongTitlesShareSubject(a: Str, b: Str)
    requires |a| > SubjectLimit && |b| > SubjectLimit
    requires a[..SubjectLimit] == b[..SubjectLimit]
    ensures Subject(a) == Subject(b)
  {
  }

  predicate IsHighSurrogate(u: CodeUnit) {
    0xD800 <= u <= 0xDBFF
  }

  /** The cut is made in code units, not characters: when a long title has a
      character outside the BMP at units 59-60, the subject keeps only its high
      surrogate, directly followed by the ellipsis. */
  lemma TruncationCanSplitSurrogatePair(title: Str)
    requires |title| > SubjectLimit && IsHighSurrogate(title[SubjectLimit - 1])
    ensures IsHighSurrogate(SubjectBody(title)[SubjectLimit - 1])
    ensures SubjectBody(title)[SubjectLimit] == Ellipsis[0]
  {
  }

  // ---------------------------------------------------------------------------
  // Labels

  const LabelOpen: Str := Lit("<span class=\"label\">")
  const LabelClose: Str := Lit("</span>")
  const NoLabels: Str := Lit("Tidak ada label")

  /** One label rendered as an inline tag; the text is not escaped. */
  function Tag(text: Str): Str {
    LabelOpen + text + LabelClose
  }

  /** `.map(label => label.trim())` */
  function TrimAll(pieces: seq<Str>): seq<Str> {
    seq(|pieces|, k requires 0 <= k < |pieces| => Trim(pieces[k]))
  }

  /** Trimming distributes over concatenation of piece lists. */
  lemma TrimAllAppend(a: seq<Str>, b: seq<Str>)
    ensures TrimAll(a + b) == TrimAll(a) + TrimAll(b)
  {
  }

  /** `labels.split(',')` with each piece trimmed: one tag text per piece, in
      order, empty pieces included. */
  function LabelTexts(labels: Str): (r: seq<Str>)
    ensures |r| == CountOf(labels, Comma) + 1
    ensures forall k | 0 <= k < |r| :: r[k] == Trim(Split(labels, Comma)[k])
  {
    TrimAll(Split(labels, Comma))
  }

  /** `.map(tag).join('')` */
  function Tags(texts: seq<Str>): Str {
    if |texts| == 0 then [] else Tag(texts[0]) + Tags(texts[1..])
  }

  lemma {:induction false} TagsAppend(a: seq<Str>, b: seq<Str>)
    ensures Tags(a + b) == Tags(a) + Tags(b)
  {
    if |a| > 0 {
      assert (a + b)[1..] == a[1..] + b;
      TagsAppend(a[1..], b);
    } else {
      assert a + b == b;
    }
  }

  /** The label block: the tags when labels are truthy, otherwise the placeholder. */
  function RenderLabels(labels: Field): (r: Str)
    ensures Truthy(labels) ==> |r| >= |LabelOpen| && r[..|LabelOpen|] == LabelOpen
    ensures r == NoLabels <==> !Truthy(labels)
  {
    if Truthy(labels) then
      var texts := LabelTexts(labels.s);
      TagsStartWithOpen(texts);
      Tags(texts)
    else NoLabels
  }

  /** A non-empty list of tags starts with an opening tag, never with the placeholder. */
  lemma TagsStartWithOpen(texts: seq<Str>)
    requires |texts| > 0
    ensures |Tags(texts)| >= |LabelOpen| && Tags(texts)[..|LabelOpen|] == LabelOpen
    ensures Tags(texts) != NoLabels
  {
  }

  /** Rendering labels written as a comma-joined list gives one tag per item,
      each item trimmed, in the order written. */
  lemma RenderJoinedLabels(items: seq<Str>)
    requires |items| >= 1
    requires forall k | 0 <= k < |items| :: Comma !in items[k]
    requires |Join(items, Comma)| > 0
    ensures RenderLabels(Present(Join(items, Comma)))
         == Tags(TrimAll(items))
  {
    SplitJoin(items, Comma);
  }

  /** The tag texts of `a,b` are those of `a` followed by those of `b`. */
  lemma LabelTextsAppend(a: Str, b: Str)
    ensures LabelTexts(a + [Comma] + b) == LabelTexts(a) + LabelTexts(b)
  {
    SplitAppend(a, b, Comma);
    TrimAllAppend(Split(a, Comma), Split(b, Comma));
  }

  /** Appending ",b" to non-empty labels appends the tags of `b`. */
  lemma RenderLabelsAppend(a: Str, b: Str)
    requires |a| > 0 && |b| > 0
    ensures RenderLabels(Present(a + [Comma] + b))
         == RenderLabels(Present(a)) + RenderLabels(Present(b))
  {
    LabelTextsAppend(a, b);
    TagsAppend(LabelTexts(a), LabelTexts(b));
  }

  /** Labels written "a, b ,c" give the three bare tag texts. */
  lemma LabelTextsExample(a: CodeUnit, b: CodeUnit, c: CodeUnit)
    requires a != Comma && b != Comma && c != Comma
    requires !IsWhiteSpace(a) && !IsWhiteSpace(b) && !IsWhiteSpace(c)
    ensures LabelTexts([a, Comma, 0x20, b, 0x20, Comma, c]) == [[a], [b], [c]]
  {
    var mid: Str := [0x20, b, 0x20];
    var tail := mid + [Comma] + [c];
    assert [a, Comma, 0x20, b, 0x20, Comma, c] == [a] + [Comma] + tail;
    assert LabelTexts(tail) == [[b], [c]] by {
      LabelTextsAppend(mid, [c]);
      assert mid[1..2] == [b];
      SingleLabel(mid, 1, 2);
      SingleLabel([c], 0, 1);
    }
    assert LabelTexts([a]) == [[a]] by {
      SingleLabel([a], 0, 1);
    }
    LabelTextsAppend([a], tail);
  }

  /** A comma-free label list gives the one tag text `s[i..j]` when only
      white space surrounds that slice. */
  lemma SingleLabel(s: Str, i: nat, j: nat)
    requires Comma !in s
    requires i <= j <= |s| && AllWhiteSpace(s[..i]) && AllWhiteSpace(s[j..])
    requires NoEdgeWhiteSpace(s[i..j])
    ensures LabelTexts(s) == [s[i..j]]
  {
    SplitNoSeparator(s, Comma);
    TrimmedSlice(s, i, j);
  }

  // ---------------------------------------------------------------------------
  // Optional fields

  const NoAuthor: Str := Lit("Tidak tersedia")
  const NoDescription: Str := Lit("Tidak ada deskripsi")
  const NoKeyword: Str := Lit("Tidak diisi")

  /** `f || fallback` for a string field. */
  function OrElse(f: Field, fallback: Str): (r: Str)
    ensures |fallback| > 0 ==> |r| > 0
    ensures Truthy(f) ==> r == f.s
    ensures !Truthy(f) ==> r == fallback
  {
    if Truthy(f) then f.s else fallback
  }

  /** A value equal to the fallback text cannot be told apart from an absent one. */
  lemma FallbackIsAmbiguous(fallback: Str)
    ensures OrElse(Present(fallback), fallback) == OrElse(Absent, fallback)
  {
  }

  // ---------------------------------------------------------------------------
  // The message

  const Recipients: seq<Str> := [Lit("ahmadyani.official@gmail.com"), Lit("admin@jejakmufassir.my.id")]

  const At: CodeUnit := 0x40

  /** The operator recipients are two distinct addresses, each containing '@'. */
  lemma RecipientsWellFormed()
    ensures |Recipients| == 2 && Recipients[0] != Recipients[1]
    ensures forall k | 0 <= k < |Recipients| :: At in Recipients[k]
  {
    assert Recipients[0][18] == At;
    assert Recipients[1][5] == At;
    assert Recipients[0][0] != Recipients[1][1];
  }

  /** The fragments the HTML template interpolates, in template order. */
  datatype Html = Html(
    author: Str,
    title: Str,
    description: Str,
    labels: Str,
    focusKeyword: Str,
    content: Str)

  datatype Mail = Mail(from: Str, to: seq<Str>, subject: Str, html: Html)

  /** `"Jejak Mufassir" <address>` */
  function SenderAddress(address: Str): Str {
    Lit("\"Jejak Mufassir\" <") + address + Lit(">")
  }

  /** The mail handed to the transport for a validated payload. */
  function ComposeMail(p: Payload, sender: Str): (m: Mail)
    requires p.title.Present? && p.content.Present?
    ensures m.to == Recipients
    ensures m.from == SenderAddress(sender)
    ensures m.subject == Subject(p.title.s)
    ensures m.html.title == p.title.s && m.html.content == p.content.s
    ensures m.html.labels == NoLabels <==> !Truthy(p.labels)
    ensures Truthy(p.labels) ==> m.html.labels == Tags(LabelTexts(p.labels.s))
    ensures Truthy(p.name) ==> m.html.author == p.name.s
    ensures !Truthy(p.name) ==> m.html.author == NoAuthor
    ensures Truthy(p.description) ==> m.html.description == p.description.s
    ensures !Truthy(p.description) ==> m.html.description == NoDescription
    ensures Truthy(p.focusKeyword) ==> m.html.focusKeyword == p.focusKeyword.s
    ensures !Truthy(p.focusKeyword) ==> m.html.focusKeyword == NoKeyword
  {
    var html := Html(
      OrElse(p.name, NoAuthor),
      p.title.s,
      OrElse(p.description, NoDescription),
      RenderLabels(p.labels),
      OrElse(p.focusKeyword, NoKeyword),
      p.content.s);
    Mail(SenderAddress(sender), Recipients, Subject(p.title.s), html)
  }
}
