/** The note list screen, pages/Note.js, and its cards,
    components/notes/Index.js: the title and tag filter, the tag choices,
    the request that loads the notes, and what one card shows. */
module Notes {
  import opened Wrappers
  import opened Text
  import opened Session
  import opened Pages
  import Seqs
  import TaskPage

  /** The fields of a loaded note that the screens read. */
  datatype Note = Note(id: nat, title: string, text: string, tag: seq<string>)

  /** The note keeps the title query: none given, or a case-insensitive part of its title. */
  predicate TitleMatch(n: Note, titles: string) {
    titles == "" || Contains(ToLower(n.title), ToLower(titles))
  }

  /** The note keeps the tag selection: none selected, or one of its tags selected. */
  predicate TagMatch(n: Note, selected: seq<string>) {
    selected == [] || exists t :: t in n.tag && t in selected
  }

  /** `filteredNote`: the notes passing both tests, in their order; no list stays no list. */
  function FilteredNote(notes: Option<seq<Note>>, titles: string, selected: seq<string>): (r: Option<seq<Note>>)
    ensures r.None? <==> notes.None?
    ensures r.Some? ==> Seqs.IsSubseq(r.value, notes.value)
    ensures r.Some? ==> forall n :: n in r.value <==> n in notes.value && TitleMatch(n, titles) && TagMatch(n, selected)
    ensures r.Some? ==> forall n :: multiset(r.value)[n] ==
                                  if TitleMatch(n, titles) && TagMatch(n, selected) then multiset(notes.value)[n] else 0
  {
    if notes.None? then None
    else
      Seqs.FilterMultiplicity(notes.value, (n: Note) => TitleMatch(n, titles) && TagMatch(n, selected));
      Some(Seqs.Filter(notes.value, (n: Note) => TitleMatch(n, titles) && TagMatch(n, selected)))
  }

  /** With no title query and no tag selected every note is shown, in order. */
  lemma NoQueryShowsAll(notes: seq<Note>)
    ensures FilteredNote(Some(notes), "", []) == Some(notes)
  {
    Seqs.FilterAll(notes, (n: Note) => TitleMatch(n, "") && TagMatch(n, []));
  }

  /** With a selection, a note is kept by the tag test exactly when it
      shares a tag with the selection. */
  lemma TagSelection(notes: seq<Note>, selected: seq<string>, n: Note)
    requires selected != [] && n in notes
    ensures n in FilteredNote(Some(notes), "", selected).value <==> exists t :: t in n.tag && t in selected
  {
  }

  /** `notes.flatMap(note => note.tag)`. */
  function TagsOf(notes: seq<Note>): seq<string> {
    if notes == [] then [] else notes[0].tag + TagsOf(notes[1..])
  }

  lemma {:induction false} TagsOfMembership(notes: seq<Note>, x: string)
    ensures x in TagsOf(notes) <==> exists n :: n in notes && x in n.tag
  {
    if notes != [] {
      TagsOfMembership(notes[1..], x);
      assert forall n :: n in notes <==> n == notes[0] || n in notes[1..];
    }
  }

  /** `[...new Set(notes.flatMap(note => note.tag))]`: every tag of every
      note, each once. */
  function AllTags(notes: seq<Note>): (r: seq<string>)
    ensures Seqs.NoDuplicates(r)
    ensures forall x :: x in r <==> exists n :: n in notes && x in n.tag
  {
    forall x ensures x in TagsOf(notes) <==> exists n :: n in notes && x in n.tag {
      TagsOfMembership(notes, x);
    }
    Seqs.Distinct(TagsOf(notes))
  }

  /** The tag choices come in the order the tags first appear in the notes. */
  lemma AllTagsInFirstOccurrenceOrder(notes: seq<Note>, i: int, j: int)
    requires 0 <= i < j < |AllTags(notes)|
    ensures Seqs.FirstIndex(TagsOf(notes), AllTags(notes)[i]) < Seqs.FirstIndex(TagsOf(notes), AllTags(notes)[j])
  {
    Seqs.DistinctKeepsFirstOccurrenceOrder(TagsOf(notes), i, j);
  }

  /** The requests that load the notes. */
  datatype NoteRequest = GetNotes | AdminAll(id: string)

  /** `getNoteList`'s endpoint: POST /api/notes/admin-all with the target's
      id for an admin with a target user, GET /api/notes otherwise; the admin
      flag is computed without a guard (`None`: rendering throws). */
  function NoteEndpoint(auth: Option<AuthInfo>, target: Option<TargetUser>): (r: Option<NoteRequest>)
    ensures r.None? <==> UnguardedAdmin(auth).None?
    ensures r.Some? ==> (r.value.AdminAll? <==> target.Some? && Truthy(target.value.userId) && IsAdmin(auth))
    ensures r.Some? && r.value.AdminAll? ==> r.value.id == target.value.userId.value
  {
    var admin := UnguardedAdmin(auth);
    if admin.None? then None
    else if target.Some? && Truthy(target.value.userId) && admin.value then Some(AdminAll(target.value.userId.value))
    else Some(GetNotes)
  }

  /** The note and task screens look at another user's data in the same cases. */
  lemma NoteAndTaskEndpointsAgree(auth: Option<AuthInfo>, target: Option<TargetUser>)
    ensures NoteEndpoint(auth, target).None? <==> TaskPage.TaskEndpoint(auth, target).None?
    ensures NoteEndpoint(auth, target).Some? ==>
      (NoteEndpoint(auth, target).value.AdminAll? <==> TaskPage.TaskEndpoint(auth, target).value.InspectTasks?)
  {
  }

  /** The state of the list screen. */
  datatype NoteScreen = NoteScreen(notes: Option<seq<Note>>, allTags: seq<string>, notFound: bool, loading: bool)

  const InitialScreen := NoteScreen(Some([]), [], false, true)

  /** What a load does to the screen: the notes and their tag choices, or
      on failure an empty list and the "not found" flag; loading ends either way. */
  function AfterLoad(s: NoteScreen, answer: Answer<seq<Note>>): (r: NoteScreen)
    ensures !r.loading
    ensures answer.Answered? ==>
      r.notes == Some(answer.data) && r.notFound == s.notFound && r.allTags == AllTags(answer.data)
      && Seqs.NoDuplicates(r.allTags)
      && forall x :: x in r.allTags <==> exists n :: n in answer.data && x in n.tag
    ensures answer.Failed? ==> r.notes == Some([]) && r.notFound && r.allTags == s.allTags
  {
    match answer
    case Answered(data) => s.(notes := Some(data), allTags := AllTags(data), loading := false)
    case Failed(_) => s.(notes := Some([]), notFound := true, loading := false)
  }

  /** After a failed load no card is shown, whatever the filters. */
  lemma FailedLoadShowsNoCard(s: NoteScreen, error: Option<string>, titles: string, selected: seq<string>)
    ensures Cards(FilteredNote(AfterLoad(s, Failed(error)).notes, titles, selected)).None?
  {
    assert FilteredNote(Some([]), titles, selected) == Some([]);
  }

  /** `textPreview`: the first 100 characters, and "..." when there are more. */
  function TextPreview(text: string): (r: string)
    ensures |r| <= 103
    ensures |text| <= 100 ==> r == text
    ensures |text| > 100 ==> |r| == 103 && r[..100] == text[..100] && r[100..] == "..."
    ensures r == "" <==> text == ""
  {
    if |text| <= 100 then text else text[..100] + "..."
  }

  /** What the card shows for the text: the preview, or "No content" for an empty text. */
  function ShownText(text: string): (r: string)
    ensures r == "No content" <==> text == "" || text == "No content"
    ensures text != "" ==> r == TextPreview(text)
  {
    var preview := TextPreview(text);
    if preview == "" then "No content" else preview
  }

  const Colors := ["primary", "success", "warning", "info", "danger", "secondary"]

  /** `getTagColor`: one of the six badge colours, chosen by the tag's length. */
  function TagColor(tag: string): (c: string)
    ensures c in Colors
  {
    Colors[|tag| % |Colors|]
  }

  /** Tags of the same length get the same colour, and the colours repeat
      every six characters. */
  lemma TagColorByLength(a: string, b: string)
    requires |a| % 6 == |b| % 6
    ensures TagColor(a) == TagColor(b)
  {
  }

  /** The tag row of a card: the first three tags with their colours, and
      the number of the others when there are any. */
  datatype Badges = Badges(shown: seq<(string, string)>, more: Option<nat>)

  /** The tag row; none when the note has no tag. */
  function TagBadges(tags: seq<string>): (r: Option<Badges>)
    ensures r.None? <==> tags == []
    ensures r.Some? ==> |r.value.shown| == if |tags| < 3 then |tags| else 3
    ensures r.Some? ==> forall i :: 0 <= i < |r.value.shown| ==> r.value.shown[i] == (tags[i], TagColor(tags[i]))
    ensures r.Some? ==> (r.value.more.Some? <==> |tags| > 3)
    ensures r.Some? && r.value.more.Some? ==> r.value.more.value == |tags| - 3
  {
    if tags == [] then None
    else
      var first := if |tags| < 3 then tags else tags[..3];
      var shown := seq(|first|, i requires 0 <= i < |first| => (first[i], TagColor(first[i])));
      Some(Badges(shown, if |tags| > 3 then Some(|tags| - 3) else None))
  }

  /** The badges account for every tag: those shown plus the "+k" count. */
  lemma {:induction false} BadgesCountAllTags(tags: seq<string>)
    requires tags != []
    ensures |TagBadges(tags).value.shown| + TagBadges(tags).value.more.GetOr(0) == |tags|
  {
    var b := TagBadges(tags).value;
    if |tags| > 3 {
      assert b.more == Some(|tags| - 3);
    } else {
      assert b.more.None?;
    }
  }

  /** One note card. */
  datatype Card = Card(id: nat, title: string, badges: Option<Badges>, text: string)

  function CardOf(n: Note): Card {
    Card(n.id, n.title, TagBadges(n.tag), ShownText(n.text))
  }

  /** `Index`: nothing for a missing or empty list, otherwise one card per
      note, in order. */
  function Cards(notes: Option<seq<Note>>): (r: Option<seq<Card>>)
    ensures r.None? <==> notes.None? || notes.value == []
    ensures r.Some? ==> |r.value| == |notes.value|
    ensures r.Some? ==> forall i :: 0 <= i < |r.value| ==> r.value[i] == CardOf(notes.value[i])
  {
    if notes.None? || notes.value == [] then None
    else Some(seq(|notes.value|, i requires 0 <= i < |notes.value| => CardOf(notes.value[i])))
  }
}
