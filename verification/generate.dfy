/** The story page: pick a record and a style, ask the generation handler for a story, then
    save it as a story document or export it as a text or HTML file. */
module GeneratePage {
  import opened Wrappers
  import opened Record
  import Text
  import Store
  import GenerateRoute

  const SelectAlert := "Please select an autobiography"
  const GenerateFailedAlert := "Failed to generate story. Please check your API key and try again."

  /** The style selected when the page opens. */
  const DefaultStyle := GenerateRoute.Emotional

  // ----- Talking to the generation handler ---------------------------------------------------

  /** The JSON body the page posts: the selected record and the selected style's name. */
  function RequestFor(r: Autobiography, style: GenerateRoute.Style): GenerateRoute.RequestBody {
    GenerateRoute.Body(GenerateRoute.Present(r), Some(GenerateRoute.StyleName(style)))
  }

  /** `response.ok`: a status in the 200 range. */
  predicate IsOk(resp: GenerateRoute.Response) {
    200 <= resp.status <= 299
  }

  /** `data.content` as the page keeps it; a missing or null content is kept as the empty
      text, which every test on the page treats alike. */
  function ReceivedContent(resp: GenerateRoute.Response): string {
    match resp.body
    case ContentBody(Some(c)) => c
    case _ => ""
  }

  /** `${fullName}'s Life Story`. */
  function LifeStoryTitle(r: Autobiography): string {
    r.personalInfo.fullName + "'s Life Story"
  }

  /** Whatever the handler's configuration and the service's reply, the request the page
      sends is accepted and forwarded, with a prompt that opens with the chosen style's
      clause; the page sees an ok response exactly when the handler is configured and the
      service answered with at least one choice, and then it shows the first choice. */
  lemma PageRequestIsServed(configured: bool, r: Autobiography, style: GenerateRoute.Style,
                            reply: GenerateRoute.ServiceReply)
    ensures var h := GenerateRoute.Post(configured, RequestFor(r, style), reply);
            && (h.request.Some? <==> configured)
            && (h.request.Some? ==>
                  h.request.value.messages[1].content == GenerateRoute.Prompt(r, GenerateRoute.StyleName(style)))
            && GenerateRoute.Opening(GenerateRoute.StyleClause(style)) <= GenerateRoute.Prompt(r, GenerateRoute.StyleName(style))
            && (IsOk(h.response) <==> configured && reply.Choices? && |reply.contents| > 0)
            && (IsOk(h.response) ==> ReceivedContent(h.response) == reply.contents[0].GetOr(""))
  {
    GenerateRoute.PromptOpensWithStyle(r, style);
  }

  // ----- Saving ------------------------------------------------------------------------------

  /** A saved story document; `createdAt` is the clock reading at the time of saving. */
  datatype Story = Story(userId: string, autobiographyId: string, content: string,
                         style: GenerateRoute.Style, title: string, createdAt: int)

  /** `title || 'Untitled Story'`: a stored story always has a title. */
  function StoryTitle(title: string): (t: string)
    ensures t != ""
    ensures title != "" ==> t == title
    ensures title == "" ==> t == "Untitled Story"
  {
    if title != "" then title else "Untitled Story"
  }

  /** How a save attempt ended: skipped by the guard, stored (the page then announces it and
      goes to the dashboard), or rejected by the database (the page shows a failure alert). */
  datatype SaveStatus = Skipped | Saved | SaveFailed

  // ----- Export ------------------------------------------------------------------------------

  datatype Format = Txt | Html

  /** A file handed to the browser for download. */
  datatype ExportFile = ExportFile(name: string, mimeType: string, body: string)

  function Extension(format: Format): string {
    match format
    case Txt => ".txt"
    case Html => ".html"
  }

  /** `${title || 'autobiography'}.txt` or `.html`. */
  function FileName(title: string, format: Format): (name: string)
    ensures title != "" ==> name == title + Extension(format)
    ensures title == "" ==> name == "autobiography" + Extension(format)
  {
    (if title != "" then title else "autobiography") + Extension(format)
  }

  /** A text export and an HTML export never get the same file name. */
  lemma FileNamesTellFormatsApart(title1: string, title2: string)
    ensures FileName(title1, Txt) != FileName(title2, Html)
  {
    var a := FileName(title1, Txt);
    var b := FileName(title2, Html);
    assert a[|a| - 1] == 't';
    assert b[|b| - 1] == 'l';
  }

  /** One line of the story as an HTML paragraph. */
  function Wrap(line: string): string {
    "<p>" + line + "</p>"
  }

  function WrapAll(lines: seq<string>): (ps: seq<string>)
    ensures |ps| == |lines|
    ensures forall i :: 0 <= i < |lines| ==> ps[i] == Wrap(lines[i])
  {
    seq(|lines|, i requires 0 <= i < |lines| => Wrap(lines[i]))
  }

  /** `content.split('\n').map(p => `<p>${p}</p>`).join('\n')`. */
  function Paragraphs(content: string): string {
    Text.Join(WrapAll(Text.Split(content, '\n')), "\n")
  }

  /** The paragraph block has one line per line of the story (one more than the story has
      line breaks), each the story's line inside `<p>` and `</p>`, inserted without any
      escaping: the unwrapped lines join back to the story. */
  lemma {:induction false} OneParagraphPerLine(content: string)
    ensures Text.Split(Paragraphs(content), '\n') == WrapAll(Text.Split(content, '\n'))
    ensures |Text.Split(Paragraphs(content), '\n')| == Text.Count(content, '\n') + 1
    ensures Text.Join(Text.Split(content, '\n'), "\n") == content
  {
    var lines := Text.Split(content, '\n');
    var ps := WrapAll(lines);
    forall i | 0 <= i < |ps| ensures '\n' !in ps[i] {
      assert '\n' !in lines[i];
      assert ps[i] == "<p>" + lines[i] + "</p>";
    }
    assert "\n" == ['\n'];
    Text.SplitJoin(ps, '\n');
    Text.JoinSplit(content, '\n');
  }

  /** The fixed text of the exported page around what is inserted into it: the part up to the
      head's title, the part from there up to the heading's title, the part from there up to
      the paragraphs, and the part after them. */
  datatype Template = Template(opening: string, headEnd: string, bodyStart: string, closing: string)

  /** The page's own template, with the exact white space of the exported file. */
  const PageTemplate := Template(
    "\n        <!DOCTYPE html>\n        <html>\n        <head>\n          <meta charset=\"UTF-8\">\n          <title>",
    "</title>\n          <style>\n"
    + "            body { font-family: Georgia, serif; max-width: 800px; margin: 0 auto; padding: 40px; line-height: 1.8; }\n"
    + "            h1 { text-align: center; margin-bottom: 40px; }\n"
    + "            p { margin-bottom: 20px; text-align: justify; }\n"
    + "          </style>\n        </head>\n        <body>\n          <h1>",
    "</h1>\n          ",
    "\n        </body>\n        </html>\n      ")

  /** The exported HTML page: the title in the head and as the heading, then the paragraphs. */
  function HtmlDocument(page: Template, title: string, content: string): string {
    page.opening + title + AfterTitle(page, title, content)
  }

  /** The document after the head's title. */
  function AfterTitle(page: Template, title: string, content: string): string {
    page.headEnd + title + AfterHeading(page, content)
  }

  /** The document after the heading's title. */
  function AfterHeading(page: Template, content: string): string {
    page.bodyStart + Paragraphs(content) + page.closing
  }

  /** Where the heading's title starts in the document. */
  function HeadingOffset(page: Template, title: string): nat {
    |page.opening| + |title| + |page.headEnd|
  }

  /** Where the paragraph block starts in the document. */
  function ParagraphsOffset(page: Template, title: string): nat {
    HeadingOffset(page, title) + |title| + |page.bodyStart|
  }

  /** The title appears verbatim, unescaped, right after the opening part (the page's
      `<title>`) and again right after the part that opens the heading (its `<h1>`). */
  lemma TitleInDocument(page: Template, title: string, content: string)
    ensures var doc := HtmlDocument(page, title, content);
            var o1 := |page.opening|;
            var o2 := HeadingOffset(page, title);
            && o2 + |title| <= |doc|
            && doc[o1..o1 + |title|] == title
            && doc[o2..o2 + |title|] == title
  {
    TitleInHead(page, title, content);
    TitleInHeading(page, title, content);
  }

  lemma TitleInHead(page: Template, title: string, content: string)
    ensures var doc := HtmlDocument(page, title, content);
            var o := |page.opening|;
            o + |title| <= |doc| && doc[o..o + |title|] == title
  {
    assert title[0..|title|] == title;
    Text.Embedded(page.opening, title, AfterTitle(page, title, content), 0, title, |page.opening|);
  }

  lemma TitleInHeading(page: Template, title: string, content: string)
    ensures var doc := HtmlDocument(page, title, content);
            var o := HeadingOffset(page, title);
            o + |title| <= |doc| && doc[o..o + |title|] == title
  {
    assert title[0..|title|] == title;
    Text.Embedded(page.headEnd, title, AfterHeading(page, content), 0, title, |page.headEnd|);
    Text.Within(page.opening + title, AfterTitle(page, title, content), |page.headEnd|, title,
                HeadingOffset(page, title));
  }

  /** The paragraph block appears verbatim in the document's body. */
  lemma ParagraphsInDocument(page: Template, title: string, content: string)
    ensures var doc := HtmlDocument(page, title, content);
            var block := Paragraphs(content);
            var o := ParagraphsOffset(page, title);
            && o + |block| <= |doc|
            && doc[o..o + |block|] == block
  {
    var block := Paragraphs(content);
    var pre := page.opening + title + page.headEnd + title + page.bodyStart;
    assert HtmlDocument(page, title, content) == pre + block + page.closing;
    assert (pre + block + page.closing)[|pre|..|pre| + |block|] == block;
  }

  /** `handleExport` past its guard: the plain story, or the HTML document. */
  function ExportOf(format: Format, title: string, content: string): (file: ExportFile)
    ensures file.name == FileName(title, format)
    ensures format == Txt ==> file.mimeType == "text/plain" && file.body == content
    ensures format == Html ==> file.mimeType == "text/html" && file.body == HtmlDocument(PageTemplate, title, content)
  {
    match format
    case Txt => ExportFile(FileName(title, Txt), "text/plain", content)
    case Html => ExportFile(FileName(title, Html), "text/html", HtmlDocument(PageTemplate, title, content))
  }

  // ----- The page ----------------------------------------------------------------------------

  class GeneratorPage {
    var autobiographies: seq<Autobiography>
    var selectedAuto: string
    var style: GenerateRoute.Style
    var generating: bool
    var generatedContent: string
    var title: string

    constructor()
      ensures autobiographies == [] && selectedAuto == "" && style == DefaultStyle
      ensures !generating && generatedContent == "" && title == ""
    {
      autobiographies := [];
      selectedAuto := "";
      style := DefaultStyle;
      generating := false;
      generatedContent := "";
      title := "";
    }

    /** `loadAutobiographies`: `result` is what the query for the user's records returned,
        `None` when it threw. The first record becomes the selection. */
    method Load(user: Option<string>, result: Option<seq<Autobiography>>)
      modifies this
      ensures user.None? || result.None? ==> unchanged(this)
      ensures user.Some? && result.Some? ==> autobiographies == result.value
      ensures user.Some? && result.Some? && |result.value| > 0 ==> selectedAuto == IdOrEmpty(result.value[0])
      ensures user.Some? && result.Some? && |result.value| == 0 ==> selectedAuto == old(selectedAuto)
      ensures style == old(style) && generating == old(generating)
      ensures generatedContent == old(generatedContent) && title == old(title)
    {
      if user.None? || result.None? {
        return;
      }
      autobiographies := result.value;
      if |result.value| > 0 {
        selectedAuto := IdOrEmpty(result.value[0]);
      }
    }

    /** The record chooser. */
    method Select(id: string)
      modifies this
      ensures selectedAuto == id && autobiographies == old(autobiographies) && style == old(style)
      ensures generating == old(generating) && generatedContent == old(generatedContent) && title == old(title)
    {
      selectedAuto := id;
    }

    /** A style button. */
    method SetStyle(st: GenerateRoute.Style)
      modifies this
      ensures style == st && autobiographies == old(autobiographies) && selectedAuto == old(selectedAuto)
      ensures generating == old(generating) && generatedContent == old(generatedContent) && title == old(title)
    {
      style := st;
    }

    /** The title box. */
    method SetTitle(t: string)
      modifies this
      ensures title == t && autobiographies == old(autobiographies) && selectedAuto == old(selectedAuto)
      ensures style == old(style) && generating == old(generating) && generatedContent == old(generatedContent)
    {
      title := t;
    }

    /** `handleGenerate`. `reply` is what the post to the generation handler came back with,
        `None` when the fetch itself threw; it is consulted only if a request is sent.
        Returns the request body sent, if any, and the alert shown, if any. */
    method Generate(reply: Option<GenerateRoute.Response>)
      returns (request: Option<GenerateRoute.RequestBody>, alert: Option<string>)
      modifies this
      ensures autobiographies == old(autobiographies) && selectedAuto == old(selectedAuto) && style == old(style)
      ensures selectedAuto == "" ==>
                request.None? && alert == Some(SelectAlert)
                && generating == old(generating) && generatedContent == old(generatedContent) && title == old(title)
      ensures selectedAuto != "" ==> !generating
      ensures selectedAuto != "" && Find(autobiographies, selectedAuto).None? ==>
                request.None? && alert.None? && generatedContent == "" && title == old(title)
      ensures selectedAuto != "" && Find(autobiographies, selectedAuto).Some? ==>
                var r := Find(autobiographies, selectedAuto).value;
                && request == Some(RequestFor(r, style))
                && (reply.Some? && IsOk(reply.value) ==>
                      alert.None? && generatedContent == ReceivedContent(reply.value) && title == LifeStoryTitle(r))
                && (!(reply.Some? && IsOk(reply.value)) ==>
                      alert == Some(GenerateFailedAlert) && generatedContent == "" && title == old(title))
    {
      request := None;
      alert := None;
      if selectedAuto == "" {
        alert := Some(SelectAlert);
        return;
      }
      generating := true;
      generatedContent := "";
      var selected := Find(autobiographies, selectedAuto);
      if selected.Some? {
        request := Some(RequestFor(selected.value, style));
        if reply.Some? && IsOk(reply.value) {
          generatedContent := ReceivedContent(reply.value);
          title := LifeStoryTitle(selected.value);
        } else {
          alert := Some(GenerateFailedAlert);
        }
      }
      generating := false;
    }

    /** `handleSaveStory`: `accepted` says whether the database took the new document, which
        `addDoc` files under a newly generated id `freshId`, one no story has yet; `now` is the
        clock reading. */
    method SaveStory(user: Option<string>, stories: Store.Collection<Story>, freshId: string,
                     now: int, accepted: bool)
      returns (status: SaveStatus)
      requires freshId !in stories.docs
      modifies stories
      ensures user.None? || generatedContent == "" ==> status == Skipped && stories.docs == old(stories.docs)
      ensures user.Some? && generatedContent != "" && accepted ==>
                status == Saved
                && stories.docs == old(stories.docs)[freshId :=
                     Story(user.value, selectedAuto, generatedContent, style, StoryTitle(title), now)]
      ensures user.Some? && generatedContent != "" && accepted ==>
                stories.docs.Keys == old(stories.docs).Keys + {freshId}
                && |stories.docs| == |old(stories.docs)| + 1
      ensures user.Some? && generatedContent != "" && !accepted ==>
                status == SaveFailed && stories.docs == old(stories.docs)
    {
      if user.None? || generatedContent == "" {
        return Skipped;
      }
      if !accepted {
        return SaveFailed;
      }
      stories.Set(freshId, Story(user.value, selectedAuto, generatedContent, style, StoryTitle(title), now));
      status := Saved;
    }

    /** `handleExport`: nothing without a story; otherwise the file to download. */
    method Export(format: Format) returns (file: Option<ExportFile>)
      ensures generatedContent == "" ==> file.None?
      ensures generatedContent != "" ==> file == Some(ExportOf(format, title, generatedContent))
    {
      if generatedContent == "" {
        return None;
      }
      file := Some(ExportOf(format, title, generatedContent));
    }
  }
}
