/** The shared-notes board (`NoteSharingViewModel`): the post list and its
    subject filter, subject documents named by their normalised name, the
    file extension of an upload, upvotes, and deleting a note together with
    a subject no note uses any more.

    The `notePosts` and `subjects` collections are maps from document id to
    record. A listener's snapshot and a store call's outcome arrive as
    parameters of the method that continues after them. */
module NoteSharing {
  import opened Kotlin
  import opened Data
  import opened Firestore

  // ---------------------------------------------------------------- filter

  /** The filter predicate `it.subject == selectedSubject`. */
  function SubjectIs(subject: string): NotePost -> bool {
    (p: NotePost) => p.subject == subject
  }

  /** The posts `applyFilter` shows: all of them with no subject selected,
      otherwise those of the selected subject. */
  function Displayed(allPosts: seq<NotePost>, selected: Option<string>): (r: seq<NotePost>)
    ensures |r| <= |allPosts|
  {
    if selected.None? then allPosts else Filter(allPosts, SubjectIs(selected.value))
  }

  /** With no selection every post is shown; with a selection a post is
      shown, as often as it occurs, exactly when it has that subject. */
  lemma DisplayedSpec(allPosts: seq<NotePost>, selected: Option<string>)
    ensures selected.None? ==> Displayed(allPosts, selected) == allPosts
    ensures selected.Some? ==> forall p :: p in Displayed(allPosts, selected) <==>
      p in allPosts && p.subject == selected.value
    ensures selected.Some? ==>
      forall p :: multiset(Displayed(allPosts, selected))[p] == (if p.subject == selected.value then multiset(allPosts)[p] else 0)
  {
    if selected.Some? {
      FilterCounts(allPosts, SubjectIs(selected.value));
      FilterMembers(allPosts, SubjectIs(selected.value));
    }
  }

  /** The filter keeps the order of the posts: it distributes over any split
      of the list. */
  lemma DisplayedKeepsOrder(front: seq<NotePost>, back: seq<NotePost>, selected: Option<string>)
    ensures Displayed(front + back, selected) == Displayed(front, selected) + Displayed(back, selected)
  {
    if selected.Some? {
      FilterAppend(front, back, SubjectIs(selected.value));
    }
  }

  /** The key of `orderBy("timestamp", DESCENDING)`. */
  function PostTime(p: NotePost): int {
    TimeKey(p.timestamp)
  }

  // -------------------------------------------------------------- subjects

  /** The stored form of a subject name: `trim()` then `uppercase()`. */
  function FormatSubject(name: string): (f: string)
    ensures f == [] <==> IsBlank(name)
  {
    Uppercase(Trim(name))
  }

  /** Upper-casing neither creates nor removes whitespace. */
  lemma UppercaseCharWhitespace(c: char)
    ensures IsWhitespace(UppercaseChar(c)) <==> IsWhitespace(c)
    ensures UppercaseChar(UppercaseChar(c)) == UppercaseChar(c)
  {
  }

  /** Normalising an already normalised name changes nothing, so the name
      `createSubjectIfNotExist` normalises again is the one it was given. */
  lemma FormatSubjectIdempotent(name: string)
    ensures FormatSubject(FormatSubject(name)) == FormatSubject(name)
  {
    var u := FormatSubject(name);
    var t := Trim(name);
    if u != [] {
      UppercaseCharWhitespace(t[0]);
      UppercaseCharWhitespace(t[|t| - 1]);
      assert Trim(u) == u;
      forall i | 0 <= i < |u| ensures UppercaseChar(u[i]) == u[i] {
        UppercaseCharWhitespace(t[i]);
      }
      assert Uppercase(u) == u;
    }
  }

  /** The `subjects` collection after `createSubjectIfNotExist(name)`. */
  function WithSubject(subjectDocs: map<string, Subject>, name: string): (r: map<string, Subject>)
  {
    if IsBlank(name) then subjectDocs
    else
      var formatted := FormatSubject(name);
      if formatted in subjectDocs then subjectDocs else subjectDocs[formatted := Subject(formatted)]
  }

  /** A blank name writes nothing; any other name leaves a document under
      its normalised name, adds no other document and overwrites none. */
  lemma WithSubjectSpec(subjectDocs: map<string, Subject>, name: string)
    ensures IsBlank(name) ==> WithSubject(subjectDocs, name) == subjectDocs
    ensures !IsBlank(name) ==> FormatSubject(name) in WithSubject(subjectDocs, name)
    ensures !IsBlank(name) ==> WithSubject(subjectDocs, name).Keys == subjectDocs.Keys + {FormatSubject(name)}
    ensures forall k :: k in subjectDocs ==> WithSubject(subjectDocs, name)[k] == subjectDocs[k]
  {
  }

  /** Creating a subject twice is creating it once. */
  lemma WithSubjectIdempotent(subjectDocs: map<string, Subject>, name: string)
    ensures WithSubject(WithSubject(subjectDocs, name), name) == WithSubject(subjectDocs, name)
  {
  }

  /** Every subject document is stored under its own name. */
  ghost predicate SubjectsNamed(subjectDocs: map<string, Subject>) {
    forall k :: k in subjectDocs ==> subjectDocs[k].name == k
  }

  /** Every note with a subject has that subject's document. */
  ghost predicate SubjectsCovered(notePosts: map<string, NotePost>, subjectDocs: map<string, Subject>) {
    forall id :: id in notePosts ==> notePosts[id].subject == "" || notePosts[id].subject in subjectDocs
  }

  /** Whether some stored note has the subject: the `whereEqualTo("subject",
      subject).limit(1)` query is non-empty. */
  predicate SubjectInUse(notePosts: map<string, NotePost>, subject: string) {
    exists id | id in notePosts :: notePosts[id].subject == subject
  }

  // ------------------------------------------------------------- extension

  /** What the content resolver reports for a file's display name: no
      cursor, a cursor with no row, a row without a `DISPLAY_NAME` column,
      a column holding null, or a name. */
  datatype DisplayName = NoCursor | NoRow | NoNameColumn | NullName | Name(name: string)

  /** The extension of a file name: `"."` and the text after the last dot,
      provided that dot is not the first character; `""` otherwise. */
  function NameExtension(fileName: string): string {
    var dotIndex := LastIndexOf(fileName, '.');
    if dotIndex > 0 then "." + fileName[dotIndex + 1..] else ""
  }

  /** The outcome of `getFileExtension`: `None` when it throws, which it
      does for a null name (`lastIndexOf` on null); `""` when there is no
      cursor, row or name column; otherwise the name's extension. */
  function Extension(displayName: DisplayName): (r: Option<string>)
    ensures r.None? <==> displayName.NullName?
    ensures displayName.Name? ==> r == Some(NameExtension(displayName.name))
  {
    match displayName
    case NullName => None
    case Name(fileName) => Some(NameExtension(fileName))
    case _ => Some("")
  }

  /** A name has an extension exactly when it has a dot after its first
      character; the extension is then a dot followed by text with no dot,
      and it ends the name without being the whole name. */
  lemma ExtensionSpec(fileName: string)
    ensures NameExtension(fileName) != "" <==> exists i :: 1 <= i < |fileName| && fileName[i] == '.'
    ensures var e := NameExtension(fileName);
      e != "" ==> e[0] == '.' && '.' !in e[1..] && |e| < |fileName| && fileName[|fileName| - |e|..] == e
  {
    var dotIndex := LastIndexOf(fileName, '.');
    var e := NameExtension(fileName);
    if dotIndex > 0 {
      assert e[1..] == fileName[dotIndex + 1..];
      assert fileName[|fileName| - |e|..] == fileName[dotIndex..];
    }
  }

  lemma ExtensionOfDotFile()
    ensures NameExtension(".gitignore") == ""
  {
    var s := ".gitignore";
    assert s[0] == '.' && '.' !in s[1..];
    assert LastIndexOf(s, '.') == 0;
  }

  lemma ExtensionOfTrailingDot()
    ensures NameExtension("a.") == "."
  {
    var s := "a.";
    assert LastIndexOf(s, '.') == 1;
  }

  lemma ExtensionOfLastDot()
    ensures NameExtension("notes.v2.pdf") == ".pdf"
  {
    var s := "notes.v2.pdf";
    assert s[8] == '.' && s[9..] == "pdf";
    assert LastIndexOf(s, '.') == 8;
  }

  /** `getFileExtension(uri, contentResolver)`, from what the content
      resolver reports; `None` when the call throws. */
  method GetFileExtension(displayName: DisplayName) returns (extension: Option<string>)
    ensures extension == Extension(displayName)
  {
    if displayName.NullName? {
      return None;
    }
    var found := "";
    if displayName.Name? {
      var fileName := displayName.name;
      var dotIndex := LastIndexOf(fileName, '.');
      if dotIndex > 0 {
        found := "." + fileName[dotIndex + 1..];
      }
    }
    extension := Some(found);
  }

  /** The upload's `resource_type`. */
  function ResourceType(fileType: string): (r: string)
    ensures r == "image" <==> StartsWith(fileType, "image")
    ensures r == "image" || r == "raw"
  {
    if StartsWith(fileType, "image") then "image" else "raw"
  }

  // --------------------------------------------------------------- upvotes

  /** The stored post after the upvote update: `wasVoter` is what the
      caller's copy of the post said, and it picks the update. */
  function Toggled(stored: NotePost, wasVoter: bool, userId: string): (r: NotePost)
    ensures r.(upvoteCount := stored.upvoteCount, upvotedBy := stored.upvotedBy) == stored
    ensures wasVoter ==> r.upvoteCount == stored.upvoteCount - 1 && userId !in r.upvotedBy
    ensures !wasVoter ==> r.upvoteCount == stored.upvoteCount + 1 && userId in r.upvotedBy
  {
    if wasVoter then
      stored.(upvoteCount := stored.upvoteCount - 1, upvotedBy := ArrayRemove(stored.upvotedBy, userId))
    else
      stored.(upvoteCount := stored.upvoteCount + 1, upvotedBy := ArrayUnion(stored.upvotedBy, userId))
  }

  /** The toggle as seen on an up-to-date copy of the post. */
  function Toggle(p: NotePost, userId: string): NotePost {
    Toggled(p, userId in p.upvotedBy, userId)
  }

  /** On an up-to-date copy with no duplicate voter, a toggle flips the
      user's vote, keeps the voters duplicate-free and keeps
      `upvoteCount - |upvotedBy|`. */
  lemma ToggleKeepsBalance(p: NotePost, userId: string)
    requires NoDuplicates(p.upvotedBy)
    ensures var t := Toggle(p, userId);
      && NoDuplicates(t.upvotedBy)
      && (userId in t.upvotedBy <==> userId !in p.upvotedBy)
      && t.upvoteCount - |t.upvotedBy| == p.upvoteCount - |p.upvotedBy|
  {
    ArrayRemoveOne(p.upvotedBy, userId);
    ArrayUnionNoDuplicates(p.upvotedBy, userId);
  }

  /** Two toggles by the same user give back the count and the set of
      voters; a user who had not voted gets back exactly the same post. */
  lemma ToggleTwice(p: NotePost, userId: string)
    requires NoDuplicates(p.upvotedBy)
    ensures var t := Toggle(Toggle(p, userId), userId);
      && t.upvoteCount == p.upvoteCount
      && multiset(t.upvotedBy) == multiset(p.upvotedBy)
      && (userId !in p.upvotedBy ==> t == p)
  {
    if userId in p.upvotedBy {
      ToggleTwiceVoter(p, userId);
    } else {
      ToggleTwiceNonVoter(p, userId);
    }
  }

  lemma ToggleTwiceVoter(p: NotePost, userId: string)
    requires NoDuplicates(p.upvotedBy) && userId in p.upvotedBy
    ensures var t := Toggle(Toggle(p, userId), userId);
      t.upvoteCount == p.upvoteCount && multiset(t.upvotedBy) == multiset(p.upvotedBy)
  {
    var removed := ArrayRemove(p.upvotedBy, userId);
    var t := Toggle(Toggle(p, userId), userId);
    assert t.upvotedBy == removed + [userId];
    MultisetOfOneOccurrence(p.upvotedBy, userId);
    assert multiset(t.upvotedBy) == multiset(removed) + multiset{userId};
  }

  lemma ToggleTwiceNonVoter(p: NotePost, userId: string)
    requires userId !in p.upvotedBy
    ensures Toggle(Toggle(p, userId), userId) == p
  {
    assert Toggle(p, userId).upvotedBy == p.upvotedBy + [userId];
    AppendThenRemove(p.upvotedBy, userId);
  }

  /** A duplicate-free array holds a present element exactly once. */
  lemma {:induction false} MultisetOfOneOccurrence(xs: seq<string>, x: string)
    requires NoDuplicates(xs) && x in xs
    ensures multiset(xs)[x] == 1
  {
    if xs[0] == x {
      assert xs == [xs[0]] + xs[1..];
      assert x !in xs[1..];
    } else {
      assert xs == [xs[0]] + xs[1..];
      MultisetOfOneOccurrence(xs[1..], x);
    }
  }

  /** Removing the element just appended to an array without it restores
      the array. */
  lemma {:induction false} AppendThenRemove(xs: seq<string>, x: string)
    requires x !in xs
    ensures ArrayRemove(xs + [x], x) == xs
  {
    if xs == [] {
      assert ArrayRemove([x], x) == [] + ArrayRemove([], x);
    } else {
      assert (xs + [x])[1..] == xs[1..] + [x];
      AppendThenRemove(xs[1..], x);
    }
  }

  /** When the user is the last voter, withdrawing and re-casting the vote
      gives back the same post. */
  lemma ToggleTwiceLastVoter(p: NotePost, userId: string)
    requires NoDuplicates(p.upvotedBy)
    requires |p.upvotedBy| > 0 && p.upvotedBy[|p.upvotedBy| - 1] == userId
    ensures Toggle(Toggle(p, userId), userId) == p
  {
    var front := p.upvotedBy[..|p.upvotedBy| - 1];
    assert p.upvotedBy == front + [userId];
    assert userId !in front by {
      forall i | 0 <= i < |front| ensures front[i] != userId {
        assert front[i] == p.upvotedBy[i];
      }
    }
    AppendThenRemove(front, userId);
  }

  /** Withdrawing and re-casting a vote moves the voter to the end. */
  lemma ToggleTwiceReorders(p: NotePost)
    requires p.upvotedBy == ["u", "v"]
    ensures Toggle(Toggle(p, "u"), "u").upvotedBy == ["v", "u"]
  {
    var xs := ["u", "v"];
    assert ArrayRemove(xs, "u") == [] + ArrayRemove(["v"], "u");
    assert ArrayRemove(["v"], "u") == ["v"] + ArrayRemove([], "u");
  }

  /** A copy that still lists a vote the store no longer holds lowers the
      count without removing anyone: the balance is lost. */
  lemma StaleToggleLosesBalance(stored: NotePost, copy: NotePost)
    requires stored.upvotedBy == [] && copy.upvotedBy == ["u"]
    ensures var t := Toggled(stored, "u" in copy.upvotedBy, "u");
      t.upvoteCount - |t.upvotedBy| == stored.upvoteCount - |stored.upvotedBy| - 1
  {
  }

  // ---------------------------------------------------------------- upload

  /** The post `uploadNote` stores once the file is hosted at `fileUrl`. */
  function NewPost(user: User, title: string, description: Option<string>, subject: string,
                   fileType: string, fileUrl: string, id: string, now: nat): (p: NotePost)
    ensures p.id == id && p.title == title && p.description == description
    ensures p.fileUrl == fileUrl && p.fileType == fileType && p.timestamp == Some(now)
    ensures p.authorId == user.uid && p.authorSapId == user.specializedId && p.authorName == user.fullName
    ensures p.upvoteCount == 0 && p.upvotedBy == []
    ensures p.subject == FormatSubject(subject)
  {
    NotePost(id := id, title := title, description := description, fileUrl := fileUrl,
             fileType := fileType, authorId := user.uid, authorSapId := user.specializedId,
             authorName := user.fullName, upvoteCount := 0, upvotedBy := [],
             subject := FormatSubject(subject), timestamp := Some(now))
  }

  /** The subject document created for a new post is the one its
      `subject` field names. */
  lemma NewPostSubjectExists(subjectDocs: map<string, Subject>, p: NotePost, subject: string)
    requires p.subject == FormatSubject(subject) && p.subject != ""
    ensures p.subject in WithSubject(subjectDocs, FormatSubject(subject))
  {
    FormatSubjectIdempotent(subject);
  }

  // ------------------------------------------------------------ view model

  class NoteSharingViewModel {
    var allPosts: seq<NotePost>
    var displayedPosts: seq<NotePost>
    var subjects: seq<Subject>
    var selectedSubject: Option<string>
    var isLoading: bool
    var isUploading: bool
    /** The `notePosts` collection. */
    var notePosts: map<string, NotePost>
    /** The `subjects` collection. */
    var subjectDocs: map<string, Subject>

    /** The shown posts are always the filtered list, and the stored
        subjects are named by their ids and cover every note's subject. */
    ghost predicate Valid()
      reads this
    {
      && displayedPosts == Displayed(allPosts, selectedSubject)
      && SubjectsNamed(subjectDocs)
      && SubjectsCovered(notePosts, subjectDocs)
    }

    /** A fresh `NoteSharingState()`; `init` then starts both listeners and
        sets `isLoading`. */
    constructor (notePosts: map<string, NotePost>, subjectDocs: map<string, Subject>)
      requires SubjectsNamed(subjectDocs) && SubjectsCovered(notePosts, subjectDocs)
      ensures Valid()
      ensures allPosts == [] && displayedPosts == [] && subjects == [] && selectedSubject == None
      ensures isLoading && !isUploading
      ensures this.notePosts == notePosts && this.subjectDocs == subjectDocs
    {
      allPosts := [];
      displayedPosts := [];
      subjects := [];
      selectedSubject := None;
      isLoading := true;
      isUploading := false;
      this.notePosts := notePosts;
      this.subjectDocs := subjectDocs;
    }

    /** `applyFilter()`. */
    method ApplyFilter()
      modifies this`displayedPosts, this`isLoading
      ensures displayedPosts == Displayed(allPosts, selectedSubject)
      ensures !isLoading
    {
      var filteredPosts := if selectedSubject.None? then allPosts
                           else Filter(allPosts, SubjectIs(selectedSubject.value));
      displayedPosts := filteredPosts;
      isLoading := false;
    }

    /** A value of the posts flow: the documents of the listener's snapshot,
        or None when the flow failed (its `catch` emits an empty list). */
    method OnPostsEvent(docs: Option<seq<NotePost>>)
      requires Valid()
      modifies this`allPosts, this`displayedPosts, this`isLoading
      ensures Valid()
      ensures allPosts == if docs.Some? then OrderDescending(docs.value, PostTime) else []
      ensures displayedPosts == Displayed(allPosts, selectedSubject) && !isLoading
    {
      allPosts := if docs.Some? then OrderDescending(docs.value, PostTime) else [];
      ApplyFilter();
    }

    /** `filterBySubject(subject)`. */
    method FilterBySubject(subject: Option<string>)
      requires Valid()
      modifies this`selectedSubject, this`displayedPosts, this`isLoading
      ensures Valid()
      ensures selectedSubject == subject
      ensures displayedPosts == Displayed(allPosts, subject) && !isLoading
    {
      selectedSubject := subject;
      ApplyFilter();
    }

    /** The subjects listener: a missing snapshot (as after an error) shows
        no subjects. */
    method OnSubjectsEvent(event: ListenerEvent<Subject>)
      requires Valid()
      modifies this`subjects
      ensures Valid()
      ensures subjects == if event.Snapshot? then event.docs else []
    {
      subjects := if event.Snapshot? then event.docs else [];
    }

    /** `createSubjectIfNotExist(subjectName)`. */
    method CreateSubjectIfNotExist(subjectName: string)
      requires Valid()
      modifies this`subjectDocs
      ensures Valid()
      ensures subjectDocs == WithSubject(old(subjectDocs), subjectName)
    {
      if IsBlank(subjectName) {
        return;
      }
      var formattedSubjectName := FormatSubject(subjectName);
      if formattedSubjectName !in subjectDocs {
        subjectDocs := subjectDocs[formattedSubjectName := Subject(formattedSubjectName)];
      }
    }

    /** The part of `uploadNote` before the file goes to the host: the
        resource type and the public id (`uuid` is the random UUID's text).
        `publicId` is `None` when `getFileExtension` throws: `uploadNote`
        then ends there, with `isUploading` left set and no callback. */
    method StartUpload(fileType: string, displayName: DisplayName, uuid: string)
      returns (resourceType: string, publicId: Option<string>)
      requires Valid()
      modifies this`isUploading
      ensures Valid()
      ensures isUploading
      ensures resourceType == ResourceType(fileType)
      ensures publicId.None? <==> displayName.NullName?
      ensures publicId.Some? ==> publicId.value == uuid + Extension(displayName).value
    {
      isUploading := true;
      resourceType := if StartsWith(fileType, "image") then "image" else "raw";
      var fileExtension := GetFileExtension(displayName);
      if fileExtension.None? {
        return resourceType, None;
      }
      publicId := Some(uuid + fileExtension.value);
    }

    /** The host rejected the file: `onComplete(false)`. */
    method OnUploadFailed() returns (completed: bool)
      requires Valid()
      modifies this`isUploading
      ensures Valid()
      ensures !isUploading && !completed
    {
      isUploading := false;
      completed := false;
    }

    /** The host stored the file at `fileUrl`: the subject is created and
        the post written under `postId`, the id the store generated.
        `subjectSaved` and `postSaved` say whether those two steps
        succeeded; the first failure ends the attempt. Returns the value
        given to `onComplete`. */
    method OnUploadSucceeded(user: User, title: string, description: Option<string>, subject: string,
                             fileType: string, fileUrl: string, postId: string, now: nat,
                             subjectSaved: bool, postSaved: bool) returns (completed: bool)
      requires Valid()
      modifies this`subjectDocs, this`notePosts, this`isUploading
      ensures Valid()
      ensures !isUploading
      ensures completed == (subjectSaved && postSaved)
      ensures subjectDocs == if subjectSaved then WithSubject(old(subjectDocs), FormatSubject(subject))
                             else old(subjectDocs)
      ensures notePosts == if completed
                           then old(notePosts)[postId := NewPost(user, title, description, subject, fileType, fileUrl, postId, now)]
                           else old(notePosts)
    {
      completed := false;
      var formattedSubject := FormatSubject(subject);
      if subjectSaved {
        CreateSubjectIfNotExist(formattedSubject);
        if postSaved {
          var newPost := NewPost(user, title, description, subject, fileType, fileUrl, postId, now);
          if formattedSubject != "" {
            NewPostSubjectExists(old(subjectDocs), newPost, subject);
          }
          notePosts := notePosts[postId := newPost];
          completed := true;
        }
      }
      isUploading := false;
    }

    /** `toggleUpvote(post, userId)`: the stored post is updated according
        to whether the caller's copy lists the user. A blank id does
        nothing, and so does a post that is not stored (the update fails). */
    method ToggleUpvote(post: NotePost, userId: string)
      requires Valid()
      modifies this`notePosts
      ensures Valid()
      ensures IsBlank(userId) || IsBlank(post.id) || post.id !in old(notePosts) ==> notePosts == old(notePosts)
      ensures !IsBlank(userId) && !IsBlank(post.id) && post.id in old(notePosts) ==>
        notePosts == old(notePosts)[post.id := Toggled(old(notePosts)[post.id], userId in post.upvotedBy, userId)]
    {
      if IsBlank(userId) || IsBlank(post.id) {
        return;
      }
      if post.id in notePosts {
        var stored := notePosts[post.id];
        notePosts := notePosts[post.id := Toggled(stored, userId in post.upvotedBy, userId)];
      }
    }

    /** `deleteNoteAndCleanupSubject(notePost)`: deletes the note, then
        deletes its subject's document when no stored note has that subject
        any more. An empty id or subject names no document, so the step
        that needs it fails and ends the operation. */
    method DeleteNoteAndCleanupSubject(notePost: NotePost)
      requires Valid()
      modifies this`notePosts, this`subjectDocs
      ensures Valid()
      ensures notePost.id == "" ==> notePosts == old(notePosts) && subjectDocs == old(subjectDocs)
      ensures notePost.id != "" ==> notePosts == old(notePosts) - {notePost.id}
      ensures notePost.id != "" && notePost.subject != "" ==>
        (notePost.subject in subjectDocs <==>
           notePost.subject in old(subjectDocs) && SubjectInUse(notePosts, notePost.subject))
      ensures forall k :: k in subjectDocs ==> k in old(subjectDocs) && subjectDocs[k] == old(subjectDocs)[k]
      ensures forall k :: k in old(subjectDocs) && k != notePost.subject ==> k in subjectDocs
    {
      if notePost.id == "" {
        return;
      }
      notePosts := notePosts - {notePost.id};
      var remainingNotes := SubjectInUse(notePosts, notePost.subject);
      if !remainingNotes && notePost.subject != "" {
        subjectDocs := subjectDocs - {notePost.subject};
      }
    }
  }
}
