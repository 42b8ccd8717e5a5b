/** The story-generation endpoint: request guards, the style table, the prompt template,
    and the single completion request to the text-generation service. */
module GenerateRoute {
  import opened Wrappers
  import opened Record
  import Text

  // ----- Writing styles -------------------------------------------------------------------

  datatype Style = Emotional | Professional | Simple | Poetic

  function StyleName(st: Style): string {
    match st
    case Emotional => "emotional"
    case Professional => "professional"
    case Simple => "simple"
    case Poetic => "poetic"
  }

  const EmotionalClause: string :=
    "Write in a deeply emotional and heartfelt tone, focusing on feelings, emotions, and personal connections. Use vivid imagery and expressive language."
  const ProfessionalClause: string :=
    "Write in a professional, polished tone suitable for formal publication. Use clear, articulate language while maintaining authenticity."
  const SimpleClause: string :=
    "Write in a simple, straightforward manner that is easy to read and understand. Use clear, conversational language."
  const PoeticClause: string :=
    "Write in a poetic, lyrical style with beautiful imagery, metaphors, and artistic expression. Create a flowing, literary narrative."

  /** The instruction clause the prompt carries for each style. */
  function StyleClause(st: Style): string {
    match st
    case Emotional => EmotionalClause
    case Professional => ProfessionalClause
    case Simple => SimpleClause
    case Poetic => PoeticClause
  }

  /** Which style, if any, a request's style string names. */
  function LookupStyle(name: string): (r: Option<Style>)
    ensures r.Some? ==> StyleName(r.value) == name
    ensures r.None? ==> forall st :: StyleName(st) != name
  {
    if name == "emotional" then Some(Emotional)
    else if name == "professional" then Some(Professional)
    else if name == "simple" then Some(Simple)
    else if name == "poetic" then Some(Poetic)
    else None
  }

  /** The names every plain object inherits from `Object.prototype` in the Node.js runtime:
      the style table answers these too, with the inherited member. */
  predicate InheritedName(name: string) {
    name in {"constructor", "__proto__", "hasOwnProperty", "isPrototypeOf", "propertyIsEnumerable",
             "toLocaleString", "toString", "valueOf", "__defineGetter__", "__defineSetter__",
             "__lookupGetter__", "__lookupSetter__"}
  }

  /** What `styleInstructions[style]` finds: one of the table's own clauses, a member the
      table inherits, or nothing (`undefined`). */
  datatype StyleValue = Own(clause: string) | Inherited(member: string) | Missing

  function StyleInstruction(name: string): (v: StyleValue)
    ensures v.Own? <==> LookupStyle(name).Some?
    ensures v.Inherited? <==> InheritedName(name)
    ensures v.Inherited? ==> v.member == name
    ensures v.Missing? <==> LookupStyle(name).None? && !InheritedName(name)
  {
    match LookupStyle(name)
    case Some(st) => Own(StyleClause(st))
    case None => if InheritedName(name) then Inherited(name) else Missing
  }

  /** A style's own name always finds that style and its clause. */
  lemma StyleRoundTrip(st: Style)
    ensures LookupStyle(StyleName(st)) == Some(st)
    ensures StyleInstruction(StyleName(st)) == Own(StyleClause(st))
  {
  }

  /** Only the four names find one of the table's clauses. */
  lemma KnownStyles(name: string)
    ensures StyleInstruction(name).Own? <==> name in {"emotional", "professional", "simple", "poetic"}
  {
  }

  /** How a template literal renders an inherited member: the `__proto__` accessor yields
      `Object.prototype` itself, the others are native functions. */
  function InheritedText(member: string): string {
    if member == "__proto__" then "[object Object]"
    else if member == "constructor" then "function Object() { [native code] }"
    else "function " + member + "() { [native code] }"
  }

  /** A template literal's rendering of a looked-up value: `undefined` when nothing is found. */
  function Interpolated(v: StyleValue): string {
    match v
    case Own(clause) => clause
    case Inherited(member) => InheritedText(member)
    case Missing => "undefined"
  }

  // ----- The prompt -------------------------------------------------------------------------

  const Preamble: string :=
    "You are a skilled autobiography writer. Create a compelling, well-structured autobiography based on the following information."

  const Closing: string :=
    "Write a comprehensive, engaging autobiography (approximately 2000-3000 words) that weaves these elements together into a cohesive narrative. Include proper chapters and structure."

  function Heading(s: Section): string {
    match s
    case PersonalInfoSection => "Personal Information"
    case ChildhoodSection => "Childhood Memories"
    case EducationSection => "Education Journey"
    case CareerSection => "Career & Achievements"
    case FamilySection => "Family & Relationships"
    case ChallengesSection => "Life Challenges"
    case DreamsSection => "Dreams, Beliefs & Goals"
  }

  /** The number of labelled lines in the prompt, one per field. */
  const LineCount: nat := 31

  /** The field whose line comes `i`-th in the prompt (personal info lists the current
      location before the background, unlike the record's own key order). */
  function FieldAt(i: nat): (f: Field)
    requires i < LineCount
  {
    if i == 0 then FullName
    else if i == 1 then DateOfBirth
    else if i == 2 then Birthplace
    else if i == 3 then CurrentLocation
    else if i == 4 then Background
    else if i == 5 then EarlyMemories
    else if i == 6 then FamilyDynamics
    else if i == 7 then SignificantEvents
    else if i == 8 then FavoriteActivities
    else if i == 9 then Schools
    else if i == 10 then FavoriteSubjects
    else if i == 11 then Achievements
    else if i == 12 then Challenges
    else if i == 13 then Mentors
    else if i == 14 then CareerPath
    else if i == 15 then MajorAccomplishments
    else if i == 16 then WorkExperiences
    else if i == 17 then Skills
    else if i == 18 then Family
    else if i == 19 then ImportantPeople
    else if i == 20 then Relationships
    else if i == 21 then FamilyLegacy
    else if i == 22 then Obstacles
    else if i == 23 then Lessons
    else if i == 24 then PivotalMoments
    else if i == 25 then Growth
    else if i == 26 then Beliefs
    else if i == 27 then Values
    else if i == 28 then FutureGoals
    else if i == 29 then DreamsLegacy
    else Wisdom
  }

  /** Where each field's line sits in `PromptOrder`: every field has exactly this one place. */
  function PromptIndex(f: Field): (i: nat)
    ensures i < LineCount && FieldAt(i) == f
  {
    match f
    case FullName => 0
    case DateOfBirth => 1
    case Birthplace => 2
    case CurrentLocation => 3
    case Background => 4
    case EarlyMemories => 5
    case FamilyDynamics => 6
    case SignificantEvents => 7
    case FavoriteActivities => 8
    case Schools => 9
    case FavoriteSubjects => 10
    case Achievements => 11
    case Challenges => 12
    case Mentors => 13
    case CareerPath => 14
    case MajorAccomplishments => 15
    case WorkExperiences => 16
    case Skills => 17
    case Family => 18
    case ImportantPeople => 19
    case Relationships => 20
    case FamilyLegacy => 21
    case Obstacles => 22
    case Lessons => 23
    case PivotalMoments => 24
    case Growth => 25
    case Beliefs => 26
    case Values => 27
    case FutureGoals => 28
    case DreamsLegacy => 29
    case Wisdom => 30
  }

  /** The label each field's line carries in the prompt. */
  function PromptLabel(f: Field): string {
    match f
    case FullName => "Name"
    case DateOfBirth => "Date of Birth"
    case Birthplace => "Birthplace"
    case CurrentLocation => "Current Location"
    case Background => "Background"
    case EarlyMemories => "Early Memories"
    case FamilyDynamics => "Family Dynamics"
    case SignificantEvents => "Significant Events"
    case FavoriteActivities => "Favorite Activities"
    case Schools => "Schools"
    case FavoriteSubjects => "Favorite Subjects"
    case Achievements => "Achievements"
    case Challenges => "Challenges"
    case Mentors => "Mentors"
    case CareerPath => "Career Path"
    case MajorAccomplishments => "Major Accomplishments"
    case WorkExperiences => "Work Experiences"
    case Skills => "Skills"
    case Family => "Family"
    case ImportantPeople => "Important People"
    case Relationships => "Relationships"
    case FamilyLegacy => "Legacy"
    case Obstacles => "Obstacles"
    case Lessons => "Lessons"
    case PivotalMoments => "Pivotal Moments"
    case Growth => "Growth"
    case Beliefs => "Beliefs"
    case Values => "Values"
    case FutureGoals => "Future Goals"
    case DreamsLegacy => "Legacy"
    case Wisdom => "Wisdom"
  }

  /** One labelled line: the label, then the value verbatim (empty or not). */
  function FieldLine(r: Autobiography, f: Field): string {
    "- " + PromptLabel(f) + ": " + Get(r, f) + "\n"
  }

  /** Whether the field is the first line of its section in the prompt. */
  predicate OpensSection(f: Field) {
    f.FullName? || f.EarlyMemories? || f.Schools? || f.CareerPath? || f.Family? || f.Obstacles? || f.Beliefs?
  }

  /** The blank line and heading that open a section, placed before its first field. */
  function HeaderOf(f: Field): string {
    if OpensSection(f) then "\n" + Heading(SectionOf(f)) + ":\n" else ""
  }

  /** A heading stands exactly where the section changes along the prompt order. */
  lemma OpensSectionWhereSectionChanges(f: Field)
    ensures var i := PromptIndex(f);
            OpensSection(f) <==> i == 0 || SectionOf(FieldAt(i - 1)) != SectionOf(f)
  {
  }

  /** The dump piece of one field: its section heading, if it opens one, and its line. */
  function DumpItem(r: Autobiography, f: Field): string {
    HeaderOf(f) + FieldLine(r, f)
  }

  /** The field dump as 31 pieces, piece `i` holding the line of `FieldAt(i)`. */
  function DumpItems(r: Autobiography): (items: seq<string>)
    ensures |items| == LineCount
  {
    seq(LineCount, i requires 0 <= i < LineCount => DumpItem(r, FieldAt(i)))
  }

  /** The piece at a field's place in the order is that field's piece. */
  lemma DumpItemAt(r: Autobiography, f: Field)
    ensures DumpItems(r)[PromptIndex(f)] == HeaderOf(f) + FieldLine(r, f)
  {
  }

  /** The text that precedes the field dump: preamble, the interpolated clause, line break. */
  function Opening(clause: string): string {
    Preamble + " " + clause + "\n"
  }

  /** The blank line and closing instruction after the field dump. */
  const Ending: string := "\n" + Closing

  /** The field dump: the 31 pieces one after the other. */
  function Dump(r: Autobiography): string {
    Text.Concat(DumpItems(r))
  }

  /** The prompt template filled with an already interpolated clause and the field dump. */
  function Compose(clause: string, dump: string): string {
    Opening(clause) + dump + Ending
  }

  /** The user prompt sent to the service: the template with `${styleInstructions[style]}`. */
  function Prompt(r: Autobiography, style: string): string {
    Compose(Interpolated(StyleInstruction(style)), Dump(r))
  }

  /** The prompt opens with the preamble and the clause, whatever the dump holds. */
  lemma OpeningIsPrefix(clause: string, dump: string)
    ensures Opening(clause) <= Compose(clause, dump)
  {
    Text.PrefixOfAppend(Opening(clause), dump + Ending);
    assert Compose(clause, dump) == Opening(clause) + (dump + Ending);
  }

  /** For each of the four styles the prompt opens with the preamble and exactly that style's clause. */
  lemma PromptOpensWithStyle(r: Autobiography, st: Style)
    ensures Opening(StyleClause(st)) <= Prompt(r, StyleName(st))
  {
    StyleRoundTrip(st);
    OpeningIsPrefix(StyleClause(st), Dump(r));
  }

  /** An unrecognised style is not rejected: the word `undefined` stands where the clause
      would, unless the name is one the table inherits (next lemma). */
  lemma PromptWithUnknownStyle(r: Autobiography, style: string)
    requires LookupStyle(style).None? && !InheritedName(style)
    ensures Opening("undefined") <= Prompt(r, style)
  {
    OpeningIsPrefix("undefined", Dump(r));
  }

  /** A name the table inherits puts the rendering of the inherited member into the prompt. */
  lemma PromptWithInheritedName(r: Autobiography, style: string)
    requires InheritedName(style)
    ensures Opening(InheritedText(style)) <= Prompt(r, style)
  {
    OpeningIsPrefix(InheritedText(style), Dump(r));
  }

  /** The prompt ends with a blank line and the closing instruction. */
  lemma PromptEndsWithClosing(clause: string, dump: string)
    ensures |Ending| <= |Compose(clause, dump)|
    ensures Compose(clause, dump)[|Compose(clause, dump)| - |Ending|..] == "\n" + Closing
  {
    Text.SuffixOfAppend(Opening(clause) + dump, Ending);
  }

  /** Where the line of field `f` starts in the field dump. */
  function DumpOffset(r: Autobiography, f: Field): nat {
    Text.Offset(DumpItems(r), PromptIndex(f)) + |HeaderOf(f)|
  }

  /** Where the line of field `f` starts in the prompt. */
  function LineOffset(clause: string, r: Autobiography, f: Field): nat {
    |Opening(clause)| + DumpOffset(r, f)
  }

  /** Every field's labelled line is in the dump verbatim, right after its heading if any. */
  lemma {:induction false} FieldLineInDump(r: Autobiography, f: Field)
    ensures DumpOffset(r, f) + |FieldLine(r, f)| <= |Dump(r)|
    ensures Dump(r)[DumpOffset(r, f)..DumpOffset(r, f) + |FieldLine(r, f)|] == FieldLine(r, f)
  {
    DumpItemAt(r, f);
    Text.PieceLine(Dump(r), DumpItems(r), PromptIndex(f), HeaderOf(f), FieldLine(r, f), DumpOffset(r, f));
  }

  /** Every field's labelled line is in the prompt verbatim, whatever its value, empty included. */
  lemma FieldLineInPrompt(clause: string, r: Autobiography, f: Field)
    ensures LineOffset(clause, r, f) + |FieldLine(r, f)| <= |Compose(clause, Dump(r))|
    ensures Compose(clause, Dump(r))[LineOffset(clause, r, f)..LineOffset(clause, r, f) + |FieldLine(r, f)|]
            == FieldLine(r, f)
  {
    FieldLineInDump(r, f);
    Text.EmbeddedIn(Compose(clause, Dump(r)), Opening(clause), Dump(r), Ending,
                    DumpOffset(r, f), FieldLine(r, f), LineOffset(clause, r, f));
  }

  /** The labelled lines follow the fixed order: an earlier field's line ends before a later one starts. */
  lemma {:induction false} FieldLinesInOrder(clause: string, r: Autobiography, f: Field, g: Field)
    requires PromptIndex(f) < PromptIndex(g)
    ensures LineOffset(clause, r, f) + |FieldLine(r, f)| <= LineOffset(clause, r, g)
  {
    var items, i, j := DumpItems(r), PromptIndex(f), PromptIndex(g);
    var line := FieldLine(r, f);
    DumpItemAt(r, f);
    Text.PieceEndsBefore(items, i, j, HeaderOf(f), line);
  }

  // ----- The request handler ------------------------------------------------------------------

  const NotConfiguredError: string :=
    "OpenAI API key not configured. Please add OPENAI_API_KEY to your environment variables."
  const MissingFieldsError: string := "Missing required fields"
  const GenerationError: string := "Failed to generate story"

  const Persona: string :=
    "You are an expert autobiography writer who creates compelling, well-structured life stories."
  const ModelName: string := "gpt-4-turbo-preview"
  /** The sampling temperature 0.8, kept as a count of tenths. */
  const TemperatureTenths: nat := 8
  const MaxTokens: nat := 4000

  /** What the request body carries as `autobiographyData`: nothing (or a falsy value),
      a value whose sections cannot be read, or a record. */
  datatype Payload = Absent | Malformed | Present(record: Autobiography)

  /** The parsed JSON body, or a body that could not be parsed. */
  datatype RequestBody = InvalidJson | Body(autobiographyData: Payload, style: Option<string>)

  datatype Role = System | User
  datatype Message = Message(role: Role, content: string)
  datatype ChatRequest = ChatRequest(model: string, messages: seq<Message>, temperatureTenths: nat, maxTokens: nat)

  /** What the completion call gives back if made: it throws, or it returns the choices,
      each with its (possibly null) message content. */
  datatype ServiceReply = Threw | Choices(contents: seq<Option<string>>)

  datatype ResponseBody = ErrorBody(error: string) | ContentBody(content: Option<string>)
  datatype Response = Response(status: nat, body: ResponseBody)

  /** The handler's response together with the completion request it issued, if any. */
  datatype Handled = Handled(response: Response, request: Option<ChatRequest>)

  /** A JavaScript truthiness test on the style value. */
  predicate Truthy(style: Option<string>) {
    style.Some? && style.value != ""
  }

  function CompletionRequest(prompt: string): ChatRequest {
    ChatRequest(ModelName, [Message(System, Persona), Message(User, prompt)], TemperatureTenths, MaxTokens)
  }

  /** POST /api/generate. `configured` says whether the service client was created at start-up. */
  function Post(configured: bool, body: RequestBody, reply: ServiceReply): (h: Handled)
    ensures !configured ==> h == Handled(Response(500, ErrorBody(NotConfiguredError)), None)
    ensures configured && body.Body? && (body.autobiographyData.Absent? || !Truthy(body.style)) ==>
              h == Handled(Response(400, ErrorBody(MissingFieldsError)), None)
    ensures h.response.status == 400 <==>
              configured && body.Body? && (body.autobiographyData.Absent? || !Truthy(body.style))
    ensures h.request.Some? <==>
              configured && body.Body? && body.autobiographyData.Present? && Truthy(body.style)
    ensures h.request.Some? ==>
              h.request.value.messages ==
                [Message(System, Persona), Message(User, Prompt(body.autobiographyData.record, body.style.value))]
    ensures h.response.status == 200 <==> h.request.Some? && reply.Choices? && |reply.contents| > 0
    ensures h.response.status == 200 ==> h.response.body == ContentBody(reply.contents[0])
    ensures h.response.status != 200 ==> h.response.status in {400, 500} && h.response.body.ErrorBody?
    ensures h.response.status == 500 && configured ==> h.response.body == ErrorBody(GenerationError)
  {
    if !configured then
      Handled(Response(500, ErrorBody(NotConfiguredError)), None)
    else
      match body
      case InvalidJson => Handled(Response(500, ErrorBody(GenerationError)), None)
      case Body(data, style) =>
        if data.Absent? || !Truthy(style) then
          Handled(Response(400, ErrorBody(MissingFieldsError)), None)
        else if data.Malformed? then
          Handled(Response(500, ErrorBody(GenerationError)), None)
        else
          var request := CompletionRequest(Prompt(data.record, style.value));
          match reply
          case Threw => Handled(Response(500, ErrorBody(GenerationError)), Some(request))
          case Choices(contents) =>
            if |contents| == 0 then Handled(Response(500, ErrorBody(GenerationError)), Some(request))
            else Handled(Response(200, ContentBody(contents[0])), Some(request))
  }

  /** With identical inputs the handler issues byte-identical requests: the prompt depends on
      nothing but the record and the style. */
  lemma RequestDependsOnlyOnBody(body: RequestBody, reply1: ServiceReply, reply2: ServiceReply)
    ensures Post(true, body, reply1).request == Post(true, body, reply2).request
  {
  }

  /** The name line of the prompt reads `- Name: ` followed by the record's full name. */
  lemma NameLineInPrompt(r: Autobiography, style: string)
    ensures var o := LineOffset(Interpolated(StyleInstruction(style)), r, FullName);
            var line := "- Name: " + r.personalInfo.fullName + "\n";
            && o + |line| <= |Prompt(r, style)|
            && Prompt(r, style)[o..o + |line|] == line
  {
    FieldLineInPrompt(Interpolated(StyleInstruction(style)), r, FullName);
    NameLine(r);
  }

  /** The full name's line is labelled `Name`. */
  lemma NameLine(r: Autobiography)
    ensures FieldLine(r, FullName) == "- Name: " + r.personalInfo.fullName + "\n"
  {
    assert PromptLabel(FullName) == "Name";
    assert "- " + "Name" + ": " == "- Name: ";
  }

  /** A record sent in the simple style to a service that answers "Hello story": the prompt
      opens with the simple clause, and the reply is passed through with status 200. */
  lemma SimpleStyleScenario(r: Autobiography)
    ensures Opening(SimpleClause) <= Prompt(r, "simple")
    ensures Post(true, Body(Present(r), Some("simple")), Choices([Some("Hello story")])).response
            == Response(200, ContentBody(Some("Hello story")))
  {
    PromptOpensWithStyle(r, Simple);
    StyleRoundTrip(Simple);
  }

  /** A style outside the table, such as "dramatic", still reaches the service. */
  lemma DramaticStyleIsSent(r: Autobiography, reply: ServiceReply)
    ensures Post(true, Body(Present(r), Some("dramatic")), reply).request.Some?
    ensures Opening("undefined") <= Prompt(r, "dramatic")
  {
    PromptWithUnknownStyle(r, "dramatic");
  }
}
