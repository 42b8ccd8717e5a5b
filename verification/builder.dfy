/** The builder wizard: seven sections edited one at a time, a progress header, field
    labels derived from the record's keys, and saving that creates the document once and
    updates it afterwards. */
module Builder {
  import opened Wrappers
  import opened Record
  import Text
  import Store

  /** One entry of the section navigator. */
  datatype SectionInfo = SectionInfo(id: string, title: string, icon: string)

  const Sections: seq<SectionInfo> := [
    SectionInfo("personalInfo", "Personal Information", "\U{1F464}"),
    SectionInfo("childhoodMemories", "Childhood Memories", "\U{1F9F8}"),
    SectionInfo("educationJourney", "Education Journey", "\U{1F393}"),
    SectionInfo("careerAchievements", "Career & Achievements", "\U{1F4BC}"),
    SectionInfo("familyRelationships", "Family & Relationships", "\U{2764}\U{FE0F}"),
    SectionInfo("lifeChallenges", "Life Challenges", "\U{26F0}\U{FE0F}"),
    SectionInfo("dreamsBeliefsGoals", "Dreams & Goals", "\U{2B50}")]

  const SectionCount: nat := 7

  /** The record section the wizard shows at position `i`. */
  function SectionAt(i: nat): Section
    requires i < SectionCount
  {
    if i == 0 then PersonalInfoSection
    else if i == 1 then ChildhoodSection
    else if i == 2 then EducationSection
    else if i == 3 then CareerSection
    else if i == 4 then FamilySection
    else if i == 5 then ChallengesSection
    else DreamsSection
  }

  /** Where the wizard shows section `s`. */
  function SectionIndex(s: Section): (i: nat)
    ensures i < SectionCount && SectionAt(i) == s
  {
    match s
    case PersonalInfoSection => 0
    case ChildhoodSection => 1
    case EducationSection => 2
    case CareerSection => 3
    case FamilySection => 4
    case ChallengesSection => 5
    case DreamsSection => 6
  }

  /** The navigator lists the seven sections of the record, each under the key the record
      stores it by, each exactly once. */
  lemma SectionsMatchRecord()
    ensures |Sections| == SectionCount
    ensures forall i :: 0 <= i < SectionCount ==> Sections[i].id == SectionKey(SectionAt(i))
    ensures forall i, j :: 0 <= i < j < SectionCount ==> SectionAt(i) != SectionAt(j)
  {
    assert Sections[0].id == SectionKey(SectionAt(0));
    assert Sections[1].id == SectionKey(SectionAt(1));
    assert Sections[2].id == SectionKey(SectionAt(2));
    assert Sections[3].id == SectionKey(SectionAt(3));
    assert Sections[4].id == SectionKey(SectionAt(4));
    assert Sections[5].id == SectionKey(SectionAt(5));
    assert Sections[6].id == SectionKey(SectionAt(6));
  }

  // ----- Field labels ------------------------------------------------------------------------

  predicate IsUpper(c: char) {
    'A' <= c <= 'Z'
  }

  predicate IsLower(c: char) {
    'a' <= c <= 'z'
  }

  /** How many capital letters the text holds. */
  function CountUpper(s: string): nat {
    if s == [] then 0 else (if IsUpper(s[0]) then 1 else 0) + CountUpper(s[1..])
  }

  /** `key.replace(/([A-Z])/g, ' $1')`: a space before every capital letter. */
  function SpaceBeforeCapitals(s: string): (r: string)
    ensures |r| == |s| + CountUpper(s)
    ensures s != [] && !IsUpper(s[0]) ==> r != [] && r[0] == s[0]
    ensures s != [] ==> r != [] && r[|r| - 1] == s[|s| - 1]
  {
    if s == [] then []
    else (if IsUpper(s[0]) then [' ', s[0]] else [s[0]]) + SpaceBeforeCapitals(s[1..])
  }

  /** Every capital letter in the text has a space right before it. */
  predicate SpaceBeforeEveryCapital(r: string) {
    forall i :: 0 <= i < |r| && IsUpper(r[i]) ==> 0 < i && r[i - 1] == ' '
  }

  /** In the spaced text every capital letter has a space right before it. */
  lemma {:induction false} CapitalsFollowSpace(s: string)
    ensures SpaceBeforeEveryCapital(SpaceBeforeCapitals(s))
  {
    if s != [] {
      var head := if IsUpper(s[0]) then [' ', s[0]] else [s[0]];
      var rest := SpaceBeforeCapitals(s[1..]);
      CapitalsFollowSpace(s[1..]);
      assert SpaceBeforeCapitals(s) == head + rest;
      assert forall i :: |head| <= i < |head + rest| ==> (head + rest)[i] == rest[i - |head|];
      if IsUpper(s[0]) {
        assert (head + rest)[0] == ' ' && (head + rest)[1] == s[0];
      } else {
        assert (head + rest)[0] == s[0];
      }
    }
  }

  /** Every space in the text stands right before a capital letter. */
  predicate SpacesOnlyBeforeCapitals(r: string) {
    forall i :: 0 <= i < |r| && r[i] == ' ' ==> i + 1 < |r| && IsUpper(r[i + 1])
  }

  /** In the spaced text of a key without spaces, every space is one inserted before a capital. */
  lemma {:induction false} SpacesPrecedeCapitals(s: string)
    requires ' ' !in s
    ensures SpacesOnlyBeforeCapitals(SpaceBeforeCapitals(s))
  {
    if s != [] {
      var head := if IsUpper(s[0]) then [' ', s[0]] else [s[0]];
      var rest := SpaceBeforeCapitals(s[1..]);
      assert ' ' !in s[1..] by {
        forall c | c in s[1..] ensures c != ' ' { assert c in s; }
      }
      SpacesPrecedeCapitals(s[1..]);
      assert SpaceBeforeCapitals(s) == head + rest;
      assert forall i :: |head| <= i < |head + rest| ==> (head + rest)[i] == rest[i - |head|];
      assert s[0] in s;
      if IsUpper(s[0]) {
        assert (head + rest)[0] == ' ' && (head + rest)[1] == s[0];
      } else {
        assert (head + rest)[0] == s[0];
      }
    }
  }

  /** The text with every space taken out. */
  function WithoutSpaces(s: string): string {
    if s == [] then [] else (if s[0] == ' ' then [] else [s[0]]) + WithoutSpaces(s[1..])
  }

  lemma {:induction false} WithoutSpacesAppend(a: string, b: string)
    ensures WithoutSpaces(a + b) == WithoutSpaces(a) + WithoutSpaces(b)
  {
    if a == [] {
      assert a + b == b;
    } else {
      assert (a + b)[0] == a[0] && (a + b)[1..] == a[1..] + b;
      WithoutSpacesAppend(a[1..], b);
    }
  }

  /** The inserted spaces are the only change: taking spaces out gives the key back. */
  lemma {:induction false} SpacesAreOnlyInsertion(s: string)
    requires ' ' !in s
    ensures WithoutSpaces(SpaceBeforeCapitals(s)) == s
  {
    if s != [] {
      assert s == [s[0]] + s[1..];
      SpacesAreOnlyInsertion(s[1..]);
      HeadWithoutSpaces(s[0], SpaceBeforeCapitals(s[1..]));
    }
  }

  /** One step of the spacing, seen through `WithoutSpaces`. */
  lemma HeadWithoutSpaces(c: char, rest: string)
    requires c != ' '
    ensures WithoutSpaces((if IsUpper(c) then [' ', c] else [c]) + rest) == [c] + WithoutSpaces(rest)
  {
    var head := if IsUpper(c) then [' ', c] else [c];
    WithoutSpacesAppend(head, rest);
    if IsUpper(c) {
      assert head[1..] == [c];
    }
  }

  /** The label above a field's text box in the six sections after personal information:
      the spaced key, trimmed. */
  function FieldLabel(key: string): string {
    Text.Trim(SpaceBeforeCapitals(key))
  }

  /** The placeholder inside a field's text box in the six sections after personal
      information. */
  function Placeholder(key: string): string {
    "Describe your " + Text.ToLowerAscii(FieldLabel(key)) + "..."
  }

  /** A record key: a lower-case ASCII letter followed by ASCII letters. */
  predicate IsCamelCase(key: string) {
    |key| > 0 && IsLower(key[0]) && forall i :: 0 <= i < |key| ==> IsLower(key[i]) || IsUpper(key[i])
  }

  /** For a key, trimming removes nothing: the label is the key with a space before each
      capital, and taking the spaces out again gives the key. */
  lemma CamelCaseLabel(key: string)
    requires IsCamelCase(key)
    ensures FieldLabel(key) == SpaceBeforeCapitals(key)
    ensures WithoutSpaces(FieldLabel(key)) == key
  {
    assert IsLower(key[|key| - 1]) || IsUpper(key[|key| - 1]);
    Text.TrimUnchanged(SpaceBeforeCapitals(key));
    SpacesAreOnlyInsertion(key);
  }

  lemma {:induction false} LowerKeepsSpaces(s: string)
    ensures WithoutSpaces(Text.ToLowerAscii(s)) == Text.ToLowerAscii(WithoutSpaces(s))
  {
    if s != [] {
      var lowered := Text.ToLowerAscii(s);
      assert lowered[0] == Text.LowerAscii(s[0]) && lowered[1..] == Text.ToLowerAscii(s[1..]);
      LowerKeepsSpaces(s[1..]);
      if s[0] != ' ' {
        LowerOfAppend([s[0]], WithoutSpaces(s[1..]));
      }
    }
  }

  lemma {:induction false} LowerOfAppend(a: string, b: string)
    ensures Text.ToLowerAscii(a + b) == Text.ToLowerAscii(a) + Text.ToLowerAscii(b)
  {
    if a == [] {
      assert a + b == b;
    } else {
      assert (a + b)[0] == a[0] && (a + b)[1..] == a[1..] + b;
      LowerOfAppend(a[1..], b);
    }
  }

  /** The placeholder of a key: its words in lower case, separated by single spaces. */
  lemma PlaceholderForKey(key: string)
    requires IsCamelCase(key)
    ensures var words := Text.ToLowerAscii(SpaceBeforeCapitals(key));
            && Placeholder(key) == "Describe your " + words + "..."
            && WithoutSpaces(words) == Text.ToLowerAscii(key)
            && forall i :: 0 <= i < |words| ==> !IsUpper(words[i])
  {
    var spaced := SpaceBeforeCapitals(key);
    var words := Text.ToLowerAscii(spaced);
    CamelCaseLabel(key);
    assert FieldLabel(key) == spaced;
    assert Placeholder(key) == "Describe your " + words + "...";
    LowerKeepsSpaces(spaced);
    assert WithoutSpaces(spaced) == key;
    forall i | 0 <= i < |words| ensures !IsUpper(words[i]) {
      assert words[i] == Text.LowerAscii(spaced[i]);
    }
  }

  /** Every field key of the record is in camel case. The page derives labels and
      placeholders from the keys only in the six sections after personal information
      (`GeneratedFieldText`); the personal-information form has fixed texts. */
  lemma KeysAreCamelCase(f: Field)
    ensures IsCamelCase(Key(f))
  {
    match SectionOf(f)
    case PersonalInfoSection => PersonalInfoKeys(f);
    case ChildhoodSection => ChildhoodKeys(f);
    case EducationSection => EducationKeys(f);
    case CareerSection => CareerKeys(f);
    case FamilySection => FamilyKeys(f);
    case ChallengesSection => ChallengesKeys(f);
    case DreamsSection => DreamsKeys(f);
  }
  /** In every section the page renders from its keys (all but personal information), a
      field's label is its key with a space before each capital, and its placeholder is
      "Describe your " with those words in lower case and "...". */
  lemma GeneratedFieldText(f: Field)
    requires SectionOf(f) != PersonalInfoSection
    ensures FieldLabel(Key(f)) == SpaceBeforeCapitals(Key(f))
    ensures WithoutSpaces(FieldLabel(Key(f))) == Key(f)
    ensures Placeholder(Key(f)) == "Describe your " + Text.ToLowerAscii(SpaceBeforeCapitals(Key(f))) + "..."
  {
    KeysAreCamelCase(f);
    CamelCaseLabel(Key(f));
    PlaceholderForKey(Key(f));
  }


  // One lemma per section keeps each case analysis small.

  lemma PersonalInfoKeys(f: Field)
    requires SectionOf(f) == PersonalInfoSection
    ensures IsCamelCase(Key(f))
  {
  }

  lemma ChildhoodKeys(f: Field)
    requires SectionOf(f) == ChildhoodSection
    ensures IsCamelCase(Key(f))
  {
  }

  lemma EducationKeys(f: Field)
    requires SectionOf(f) == EducationSection
    ensures IsCamelCase(Key(f))
  {
  }

  lemma CareerKeys(f: Field)
    requires SectionOf(f) == CareerSection
    ensures IsCamelCase(Key(f))
  {
  }

  lemma FamilyKeys(f: Field)
    requires SectionOf(f) == FamilySection
    ensures IsCamelCase(Key(f))
  {
  }

  lemma ChallengesKeys(f: Field)
    requires SectionOf(f) == ChallengesSection
    ensures IsCamelCase(Key(f))
  {
  }

  lemma DreamsKeys(f: Field)
    requires SectionOf(f) == DreamsSection
    ensures IsCamelCase(Key(f))
  {
  }

  // ----- Progress ----------------------------------------------------------------------------

  /** A navigator entry carries a check mark when it lies before the current section. */
  predicate IsCompleted(index: nat, current: nat) {
    index < current
  }

  /** "Section {current + 1} of 7". */
  function HeaderText(current: nat): string {
    "Section " + Text.IntToString(current + 1) + " of " + Text.IntToString(|Sections|)
  }

  lemma HeaderShowsPosition(current: nat)
    requires current < SectionCount
    ensures HeaderText(current) == "Section " + [Text.DigitChar(current + 1)] + " of 7"
  {
    assert Text.IntToString(|Sections|) == "7";
  }

  /** `Math.round((current + 1) / 7 * 100)`, the integer nearest to the exact ratio. */
  function PercentComplete(current: nat): (p: nat)
    ensures 14 * p <= 200 * (current + 1) + 7 < 14 * p + 14
  {
    (200 * (current + 1) + 7) / 14
  }

  /** The percentage grows with every section and reaches 100 only at the last one. */
  lemma PercentProgress(i: nat, j: nat)
    requires i < j < SectionCount
    ensures PercentComplete(i) < PercentComplete(j) <= 100
    ensures PercentComplete(j) == 100 <==> j == SectionCount - 1
  {
  }

  /** "Previous": one section back, never below the first. */
  function PreviousSection(current: nat): (n: nat)
    ensures current == 0 ==> n == 0
    ensures current > 0 ==> n + 1 == current
  {
    if current == 0 then 0 else current - 1
  }

  /** Where "Next" leads: the following section, or the story page after the last one. */
  datatype Navigation = Stay | ToGenerate

  function NextStep(current: nat): (step: (nat, Navigation))
    requires current < SectionCount
    ensures step.0 < SectionCount
    ensures step.1 == ToGenerate <==> current == SectionCount - 1
    ensures step.1 == Stay ==> step.0 == current + 1
    ensures step.1 == ToGenerate ==> step.0 == current
  {
    if current < SectionCount - 1 then (current + 1, Stay) else (current, ToGenerate)
  }

  /** "Next" puts a check mark on the section just left and keeps every earlier one. */
  lemma NextMarksCompleted(current: nat)
    requires current < SectionCount - 1
    ensures var n := NextStep(current).0;
            IsCompleted(current, n) && !IsCompleted(n, n)
            && forall i :: IsCompleted(i, current) ==> IsCompleted(i, n)
  {
  }

  // ----- Saving ------------------------------------------------------------------------------

  /** `{...formData, userId: user.uid}`: the form with the owner stamped on it. */
  function SaveData(form: Autobiography, uid: string): (d: Autobiography)
    ensures d.userId == uid && d.id == form.id
    ensures forall f :: Get(d, f) == Get(form, f)
  {
    form.(userId := uid)
  }

  /** What one save leaves behind: the remembered document id, the documents, and whether
      the failure alert was shown. */
  datatype SaveResult = SaveResult(autoId: Option<string>, docs: map<string, Autobiography>, alerted: bool)

  /** `handleSave`: nothing without a user; an update of the remembered document when there
      is one (failing if it is gone); otherwise a new document under the generated id,
      which is remembered. `accepted` says whether the database takes the write: a rejected
      write throws inside the `try`, so nothing is stored, no id is remembered and the
      failure alert is shown. */
  function SaveOutcome(user: Option<string>, autoId: Option<string>, docs: map<string, Autobiography>,
                       form: Autobiography, freshId: string, accepted: bool): SaveResult
  {
    if user.None? then SaveResult(autoId, docs, false)
    else if !accepted then SaveResult(autoId, docs, true)
    else
      var data := SaveData(form, user.value);
      if autoId.Some? && autoId.value != "" then
        if autoId.value in docs then SaveResult(autoId, docs[autoId.value := data], false)
        else SaveResult(autoId, docs, true)
      else SaveResult(Some(freshId), docs[freshId := data], false)
  }

  /** Without a user, saving changes nothing. */
  lemma SaveWithoutUser(autoId: Option<string>, docs: map<string, Autobiography>, form: Autobiography, freshId: string)
    ensures forall accepted :: SaveOutcome(None, autoId, docs, form, freshId, accepted) == SaveResult(autoId, docs, false)
  {
  }

  /** A write the database rejects leaves the documents and the remembered id as they were,
      and alerts. */
  lemma RejectedSaveChangesNothing(uid: string, autoId: Option<string>, docs: map<string, Autobiography>,
                                   form: Autobiography, freshId: string)
    ensures SaveOutcome(Some(uid), autoId, docs, form, freshId, false) == SaveResult(autoId, docs, true)
  {
  }

  /** The first accepted save stores a document under the generated id, owned by the user
      and holding the form, and remembers that id; no other document changes. */
  lemma FirstSaveCreates(uid: string, docs: map<string, Autobiography>, form: Autobiography, freshId: string)
    ensures var out := SaveOutcome(Some(uid), None, docs, form, freshId, true);
            && out.autoId == Some(freshId) && !out.alerted
            && freshId in out.docs && out.docs[freshId].userId == uid
            && (forall f :: Get(out.docs[freshId], f) == Get(form, f))
            && (forall k :: k in docs && k != freshId ==> k in out.docs && out.docs[k] == docs[k])
            && out.docs.Keys == docs.Keys + {freshId}
  {
  }

  /** A generated id that is not yet taken makes the first accepted save add exactly one
      document. */
  lemma FirstSaveAddsOne(uid: string, docs: map<string, Autobiography>, form: Autobiography, freshId: string)
    requires freshId !in docs
    ensures var out := SaveOutcome(Some(uid), None, docs, form, freshId, true);
            |out.docs| == |docs| + 1
  {
  }

  /** Once an id is remembered, a later save updates that document and adds none, whatever
      id would have been generated. */
  lemma LaterSaveUpdates(uid: string, docs: map<string, Autobiography>, form: Autobiography,
                         first: string, freshId: string)
    requires first != ""
    ensures var out1 := SaveOutcome(Some(uid), None, docs, form, first, true);
            var out2 := SaveOutcome(Some(uid), out1.autoId, out1.docs, form, freshId, true);
            && out2.autoId == Some(first) && !out2.alerted
            && out2.docs.Keys == out1.docs.Keys
            && out2.docs[first] == SaveData(form, uid)
  {
  }

  /** `handleSave` exactly as the page's imports make it behave: `collection` is called on
      the create branch but never imported, so that branch throws inside the `try` and ends
      in the failure alert with nothing stored and no id remembered. */
  function SaveOutcomeAsWritten(user: Option<string>, autoId: Option<string>, docs: map<string, Autobiography>,
                                form: Autobiography, accepted: bool): SaveResult
  {
    if user.None? then SaveResult(autoId, docs, false)
    else if !accepted then SaveResult(autoId, docs, true)
    else if autoId.Some? && autoId.value != "" then
      var data := SaveData(form, user.value);
      if autoId.value in docs then SaveResult(autoId, docs[autoId.value := data], false)
      else SaveResult(autoId, docs, true)
    else SaveResult(autoId, docs, true)
  }

  /** As written, a signed-in user's first save stores nothing, remembers no id and alerts,
      so every later save fails the same way; the intended save remembers the new id. */
  lemma FirstSaveAsWrittenFails(uid: string, docs: map<string, Autobiography>, form: Autobiography, freshId: string)
    ensures forall accepted :: SaveOutcomeAsWritten(Some(uid), None, docs, form, accepted) == SaveResult(None, docs, true)
    ensures var intended := SaveOutcome(Some(uid), None, docs, form, freshId, true);
            intended.autoId == Some(freshId) && !intended.alerted
  {
  }

  /** The wizard's state. */
  class BuilderPage {
    var currentSection: nat
    var formData: Autobiography
    var autoId: Option<string>

    ghost predicate Valid()
      reads this
    {
      currentSection < SectionCount
    }

    constructor()
      ensures Valid()
      ensures currentSection == 0 && formData == EmptyRecord && autoId == None
    {
      currentSection := 0;
      formData := EmptyRecord;
      autoId := None;
    }

    /** Opening the page: with a user and an `id` query parameter the stored document is
        loaded (if it exists and the read succeeds; `readOk` is false when `getDoc` throws,
        which is only logged) and its id remembered either way; with a user only, the form
        is stamped with the user's id. */
    method Open(user: Option<string>, id: Option<string>, store: Store.Collection<Autobiography>, readOk: bool)
      requires Valid()
      modifies this
      ensures Valid() && currentSection == old(currentSection)
      ensures user.None? ==> formData == old(formData) && autoId == old(autoId)
      ensures user.Some? && id.Some? && id.value != "" ==>
                autoId == id
                && formData == (if readOk && id.value in store.docs then store.docs[id.value] else old(formData))
      ensures user.Some? && !(id.Some? && id.value != "") ==>
                autoId == old(autoId) && formData == old(formData).(userId := user.value)
    {
      if id.Some? && id.value != "" && user.Some? {
        var loaded := store.Lookup(id.value);
        if readOk && loaded.Some? {
          formData := loaded.value;
        }
        autoId := id;
      } else if user.Some? {
        formData := formData.(userId := user.value);
      }
    }

    /** `updateField`: one field of the form takes the typed value. */
    method UpdateField(f: Field, v: string)
      requires Valid()
      modifies this
      ensures Valid()
      ensures formData == Record.UpdateField(old(formData), f, v)
      ensures currentSection == old(currentSection) && autoId == old(autoId)
    {
      formData := Record.UpdateField(formData, f, v);
    }

    /** "Previous". */
    method Previous()
      requires Valid()
      modifies this
      ensures Valid() && currentSection == PreviousSection(old(currentSection))
      ensures formData == old(formData) && autoId == old(autoId)
    {
      if currentSection > 0 {
        currentSection := currentSection - 1;
      }
    }

    /** A click on a navigator entry. */
    method GoTo(index: nat)
      requires Valid() && index < SectionCount
      modifies this
      ensures Valid() && currentSection == index
      ensures formData == old(formData) && autoId == old(autoId)
    {
      currentSection := index;
    }

    /** "Save Progress". */
    method Save(user: Option<string>, store: Store.Collection<Autobiography>, freshId: string, accepted: bool)
      returns (alerted: bool)
      requires Valid()
      modifies this, store
      ensures Valid() && currentSection == old(currentSection) && formData == old(formData)
      ensures SaveResult(autoId, store.docs, alerted)
              == SaveOutcome(user, old(autoId), old(store.docs), old(formData), freshId, accepted)
    {
      alerted := false;
      if user.None? {
        return;
      }
      if !accepted {
        alerted := true;
        return;
      }
      var data := SaveData(formData, user.value);
      if autoId.Some? && autoId.value != "" {
        var ok := store.Update(autoId.value, data);
        alerted := !ok;
      } else {
        store.Set(freshId, data);
        autoId := Some(freshId);
      }
    }

    /** "Next" / "Generate Story": save, then move on or leave for the story page. */
    method Next(user: Option<string>, store: Store.Collection<Autobiography>, freshId: string, accepted: bool)
      returns (nav: Navigation, alerted: bool)
      requires Valid()
      modifies this, store
      ensures Valid() && formData == old(formData)
      ensures (currentSection, nav) == NextStep(old(currentSection))
      ensures SaveResult(autoId, store.docs, alerted)
              == SaveOutcome(user, old(autoId), old(store.docs), old(formData), freshId, accepted)
    {
      alerted := Save(user, store, freshId, accepted);
      if currentSection < SectionCount - 1 {
        currentSection := currentSection + 1;
        nav := Stay;
      } else {
        nav := ToGenerate;
      }
    }
  }
}
