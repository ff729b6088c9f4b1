/**
 * The community feed of src/components/CommunityFeed.tsx: creating posts
 * (with an optional image upload), commenting, deleting one's own posts, and
 * toggling one's upvote on a post. Every store call is a parameter giving its
 * outcome; the calls made are kept in order in a log. Reloading the post list
 * after a change is not modelled.
 */
module CommunityFeed {
  import opened Common
  import opened Text

  /** The signed-in user: an id and, possibly, an email address. */
  datatype User = User(id: string, email: Option<string>)

  /** The `full_name` and `display_name` of the user's profile row; a missing or null field is "". */
  datatype ProfileNames = ProfileNames(fullName: string, displayName: string)

  /** No profile, or one whose two names are both empty. */
  predicate NoNames(profile: Option<ProfileNames>) {
    profile.None? || (profile.value.fullName == "" && profile.value.displayName == "")
  }

  /**
   * `profile?.full_name || profile?.display_name || user.email?.split('@')[0] || 'User'`:
   * the first non-empty of the two profile names and the email's local part, else "User".
   */
  function DisplayName(profile: Option<ProfileNames>, email: Option<string>): (name: string)
    ensures name != ""
    ensures profile.Some? && profile.value.fullName != "" ==> name == profile.value.fullName
    ensures profile.Some? && profile.value.fullName == "" && profile.value.displayName != "" ==> name == profile.value.displayName
    ensures NoNames(profile) && email.Some? && BeforeFirst(email.value, '@') != "" ==>
      name == BeforeFirst(email.value, '@')
    ensures NoNames(profile) && (email.None? || BeforeFirst(email.value, '@') == "") ==> name == "User"
  {
    var full := if profile.Some? then profile.value.fullName else "";
    var display := if profile.Some? then profile.value.displayName else "";
    var local := if email.Some? then BeforeFirst(email.value, '@') else "";
    if full != "" then full
    else if display != "" then display
    else if local != "" then local
    else "User"
  }

  /** With no profile names, the name shown is the part of the email before the '@'. */
  lemma NameFromEmail(profile: Option<ProfileNames>, local: string, domain: string)
    requires NoNames(profile)
    requires local != "" && '@' !in local
    ensures DisplayName(profile, Some(local + "@" + domain)) == local
  {
    BeforeFirstOfJoin(local, '@', domain);
    assert local + "@" + domain == local + ['@'] + domain;
  }

  /** `${user.id}-${Date.now()}.${fileExt}`: the name of an uploaded post image. */
  function PostImagePath(userId: string, now: nat, fileName: string): (path: string)
    ensures userId + "-" <= path
  {
    userId + "-" + NatToString(now) + "." + FileExtension(fileName)
  }

  /** The stored image keeps the chosen file's extension. */
  lemma PostImagePathExtension(userId: string, now: nat, fileName: string)
    ensures FileExtension(PostImagePath(userId, now, fileName)) == FileExtension(fileName)
  {
    ExtensionAfterDot(userId + "-" + NatToString(now), FileExtension(fileName));
  }

  /** A row of `posts` or `post_comments` as inserted. */
  datatype PostRow = PostRow(userId: string, userName: string, title: string, content: string, imageUrl: Option<string>)
  datatype CommentRow = CommentRow(postId: string, userId: string, userName: string, text: string)

  /** The writes the feed makes, in order. */
  datatype StoreCall =
    | UploadImage(path: string)
    | InsertPost(post: PostRow)
    | InsertComment(comment: CommentRow)
    | DeletePost(postId: string, userId: string)
    | DeleteUpvote(postId: string, userId: string)
    | DecrementUpvotes(postId: string)
    | InsertUpvote(postId: string, userId: string)
    | IncrementUpvotes(postId: string)

  /** The outcome of a store call: done, or an error that may carry a message. */
  datatype Outcome = Done | Failed(message: Option<string>)

  // ---------------------------------------------------------------------------
  // Upvotes

  /** `userUpvotes` after a successful toggle: the post leaves the set if it was there, else joins it. */
  function Toggle(upvotes: set<string>, postId: string): (r: set<string>)
    ensures postId in r <==> postId !in upvotes
    ensures forall p :: p != postId ==> (p in r <==> p in upvotes)
  {
    if postId in upvotes then upvotes - {postId} else upvotes + {postId}
  }

  /** The two calls of `handleUpvote`, in order, for a post already upvoted or not. */
  function UpvoteCalls(upvoted: bool, postId: string, userId: string): (calls: seq<StoreCall>)
    ensures |calls| == 2
    ensures upvoted ==> calls[0] == DeleteUpvote(postId, userId) && calls[1] == DecrementUpvotes(postId)
    ensures !upvoted ==> calls[0] == InsertUpvote(postId, userId) && calls[1] == IncrementUpvotes(postId)
  {
    if upvoted then [DeleteUpvote(postId, userId), DecrementUpvotes(postId)]
    else [InsertUpvote(postId, userId), IncrementUpvotes(postId)]
  }

  const SignInToUpvoteToast := "Please sign in to upvote"
  const UpvoteRemovedToast := "Upvote removed"
  const UpvotedToast := "Upvoted!"
  const UpvoteFailedToast := "Failed to update upvote"

  /**
   * `handleUpvote`: the new upvote set, the calls made and the toast. The
   * second call is made only when the first succeeds, and the set changes
   * only when both do.
   */
  function Upvote(upvotes: set<string>, user: Option<User>, postId: string, first: Outcome, second: Outcome)
    : (r: (set<string>, seq<StoreCall>, string))
    ensures user.None? ==> r == (upvotes, [], SignInToUpvoteToast)
    ensures user.Some? && first.Failed? ==>
      r == (upvotes, UpvoteCalls(postId in upvotes, postId, user.value.id)[..1], UpvoteFailedToast)
    ensures user.Some? && first.Done? && second.Failed? ==>
      r == (upvotes, UpvoteCalls(postId in upvotes, postId, user.value.id), UpvoteFailedToast)
    ensures user.Some? && first.Done? && second.Done? ==>
      && r.0 == Toggle(upvotes, postId)
      && r.1 == UpvoteCalls(postId in upvotes, postId, user.value.id)
      && r.2 == (if postId in upvotes then UpvoteRemovedToast else UpvotedToast)
  {
    if user.None? then (upvotes, [], SignInToUpvoteToast)
    else
      var calls := UpvoteCalls(postId in upvotes, postId, user.value.id);
      if first.Failed? then (upvotes, calls[..1], UpvoteFailedToast)
      else if second.Failed? then (upvotes, calls, UpvoteFailedToast)
      else (Toggle(upvotes, postId), calls, if postId in upvotes then UpvoteRemovedToast else UpvotedToast)
  }

  /** Only a fully successful upvote changes the set; any failure leaves it as it was. */
  lemma UpvoteChangesSetOnlyOnSuccess(upvotes: set<string>, user: Option<User>, postId: string, first: Outcome, second: Outcome)
    ensures Upvote(upvotes, user, postId, first, second).0 != upvotes <==> user.Some? && first.Done? && second.Done?
  {
    if user.Some? && first.Done? && second.Done? {
      assert postId in Toggle(upvotes, postId) <==> postId !in upvotes;
    }
  }

  /** Two successful upvotes of the same post give back the set before them. */
  lemma UpvoteTwiceRestores(upvotes: set<string>, user: User, postId: string)
    ensures var once := Upvote(upvotes, Some(user), postId, Done, Done).0;
      Upvote(once, Some(user), postId, Done, Done).0 == upvotes
  {
    var once := Toggle(upvotes, postId);
    var twice := Toggle(once, postId);
    assert forall p :: p in twice <==> p in upvotes;
  }

  /** Removing an upvote first deletes the user's upvote row, and only then decrements the count. */
  lemma RemovalDeletesBeforeDecrement(upvotes: set<string>, user: User, postId: string, first: Outcome, second: Outcome)
    requires postId in upvotes
    ensures var calls := Upvote(upvotes, Some(user), postId, first, second).1;
      && |calls| >= 1 && calls[0] == DeleteUpvote(postId, user.id)
      && (|calls| == 2 <==> first.Done?)
  {
  }

  // ---------------------------------------------------------------------------
  // Posts

  const SignInToPostToast := "Please sign in to create a post"
  const FillPostToast := "Please fill in title and content"
  const PostSharedToast := "Post shared with community!"
  const UploadFailedToast := "Failed to upload image. Make sure the post-images bucket exists."
  const PostsTableToast := "Failed to create post. Make sure the posts table exists."

  /** The `catch` block of `handleCreatePost`: the message decides the toast, in the order storage, posts. */
  function CreatePostErrorText(message: Option<string>): (t: string)
    ensures message.Some? && Contains(message.value, "storage") ==> t == UploadFailedToast
    ensures message.Some? && !Contains(message.value, "storage") && Contains(message.value, "posts") ==> t == PostsTableToast
    ensures message.None? || (!Contains(message.value, "storage") && !Contains(message.value, "posts")) ==>
      t == "Failed to create post: " + (if message.None? || message.value == "" then "Unknown error" else message.value)
  {
    match message
    case Some(m) =>
      if Contains(m, "storage") then UploadFailedToast
      else if Contains(m, "posts") then PostsTableToast
      else "Failed to create post: " + (if m == "" then "Unknown error" else m)
    case None => "Failed to create post: Unknown error"
  }

  // ---------------------------------------------------------------------------
  // Comments and deletion

  const SignInToCommentToast := "Please sign in to comment"
  const CommentAddedToast := "Comment added!"
  const CommentFailedToast := "Failed to add comment"
  const NotYourPostToast := "You can only delete your own posts"
  const PostDeletedToast := "Post deleted"
  const DeleteFailedToast := "Failed to delete post"

  /** `handleDeletePost`: the calls made and the toast. */
  function DeleteStep(user: Option<User>, postId: string, authorId: string, outcome: Outcome): (r: (seq<StoreCall>, string))
    ensures r.0 != [] <==> user.Some? && user.value.id == authorId
    ensures r.0 != [] ==> r.0 == [DeletePost(postId, authorId)]
    ensures r.0 == [] ==> r.1 == NotYourPostToast
    ensures r.0 != [] ==> r.1 == (if outcome.Done? then PostDeletedToast else DeleteFailedToast)
  {
    if user.None? || user.value.id != authorId then ([], NotYourPostToast)
    else ([DeletePost(postId, user.value.id)], if outcome.Done? then PostDeletedToast else DeleteFailedToast)
  }

  // ---------------------------------------------------------------------------
  // The component state

  /** The feed's editable state and the calls made so far. */
  datatype FeedState = FeedState(
    title: string, content: string,          // `newPost`
    selectedImage: Option<string>,           // the chosen file's name
    commentText: string,
    upvotes: set<string>,                    // `userUpvotes`
    calls: seq<StoreCall>)

  /** The upload call of `handleCreatePost`, made only when a file was chosen. */
  function UploadCalls(f: FeedState, userId: string, now: nat): (calls: seq<StoreCall>)
    ensures f.selectedImage.Some? ==> calls == [UploadImage(PostImagePath(userId, now, f.selectedImage.value))]
    ensures f.selectedImage.None? ==> calls == []
  {
    if f.selectedImage.Some? then [UploadImage(PostImagePath(userId, now, f.selectedImage.value))] else []
  }

  /** The insert of a post row, and the form reset when it succeeds. */
  function Inserted(f: FeedState, row: PostRow, insert: Outcome): (r: (FeedState, string))
    ensures r.0.calls == f.calls + [InsertPost(row)]
    ensures r.0.upvotes == f.upvotes && r.0.commentText == f.commentText
    ensures insert.Done? ==> r.0.title == "" && r.0.content == "" && r.0.selectedImage.None? && r.1 == PostSharedToast
    ensures insert.Failed? ==> r == (f.(calls := r.0.calls), CreatePostErrorText(insert.message))
  {
    var calls := f.calls + [InsertPost(row)];
    if insert.Done? then (f.(title := "", content := "", selectedImage := None, calls := calls), PostSharedToast)
    else (f.(calls := calls), CreatePostErrorText(insert.message))
  }

  /** The part of `handleCreatePost` after the guards: upload, profile lookup, insert. */
  function Publish(f: FeedState, user: User, now: nat, upload: Result<string, Option<string>>,
                   profile: Option<ProfileNames>, insert: Outcome): (r: (FeedState, string))
    ensures r.0.upvotes == f.upvotes && r.0.commentText == f.commentText
    ensures f.calls + UploadCalls(f, user.id, now) <= r.0.calls
  {
    var uploaded := f.(calls := f.calls + UploadCalls(f, user.id, now));
    if f.selectedImage.Some? && upload.Err? then (uploaded, CreatePostErrorText(upload.error))
    else
      var imageUrl := if f.selectedImage.Some? then Some(upload.value) else None;
      Inserted(uploaded, PostRow(user.id, DisplayName(profile, user.email), f.title, f.content, imageUrl), insert)
  }

  /** `handleCreatePost`. */
  function CreatePost(f: FeedState, user: Option<User>, now: nat, upload: Result<string, Option<string>>,
                      profile: Option<ProfileNames>, insert: Outcome): (r: (FeedState, string))
    ensures user.None? ==> r == (f, SignInToPostToast)
    ensures user.Some? && (IsBlank(f.title) || IsBlank(f.content)) ==> r == (f, FillPostToast)
    ensures user.Some? && !IsBlank(f.title) && !IsBlank(f.content) ==> r == Publish(f, user.value, now, upload, profile, insert)
  {
    if user.None? then (f, SignInToPostToast)
    else if Trim(f.title) == "" || Trim(f.content) == "" then (f, FillPostToast)
    else Publish(f, user.value, now, upload, profile, insert)
  }

  /** A failed image upload stops the post: nothing is inserted, the form is kept, and the toast comes from the error. */
  lemma FailedUploadInsertsNothing(f: FeedState, user: User, now: nat, message: Option<string>,
                                   profile: Option<ProfileNames>, insert: Outcome)
    requires f.selectedImage.Some? && !IsBlank(f.title) && !IsBlank(f.content)
    ensures var r := CreatePost(f, Some(user), now, Err(message), profile, insert);
      && r.0 == f.(calls := f.calls + [UploadImage(PostImagePath(user.id, now, f.selectedImage.value))])
      && r.1 == CreatePostErrorText(message)
  {
  }

  /** The store is written only for a signed-in user with a non-blank title and content. */
  lemma OnlyValidPostsWrite(f: FeedState, user: Option<User>, now: nat, upload: Result<string, Option<string>>,
                            profile: Option<ProfileNames>, insert: Outcome)
    ensures CreatePost(f, user, now, upload, profile, insert).0.calls != f.calls ==>
      user.Some? && !IsBlank(f.title) && !IsBlank(f.content)
  {
  }

  /**
   * Once the upload (if any) has succeeded, exactly one post is inserted, by
   * the user, under the display name of the fallback chain, with the form's
   * title and content and the uploaded file's URL when a file was chosen;
   * the form is cleared exactly when the insert succeeds.
   */
  lemma PublishedPost(f: FeedState, user: User, now: nat, upload: Result<string, Option<string>>,
                      profile: Option<ProfileNames>, insert: Outcome)
    requires !(f.selectedImage.Some? && upload.Err?)
    ensures var r := Publish(f, user, now, upload, profile, insert);
      var n := |f.calls + UploadCalls(f, user.id, now)|;
      && |r.0.calls| == n + 1
      && r.0.calls[n].InsertPost?
      && r.0.calls[n].post.userId == user.id
      && r.0.calls[n].post.userName == DisplayName(profile, user.email) && r.0.calls[n].post.userName != ""
      && r.0.calls[n].post.title == f.title && r.0.calls[n].post.content == f.content
      && (f.selectedImage.Some? ==> r.0.calls[n].post.imageUrl == Some(upload.value))
      && (f.selectedImage.None? ==> r.0.calls[n].post.imageUrl.None?)
      && (insert.Done? ==> r.0.title == "" && r.0.content == "" && r.0.selectedImage.None? && r.1 == PostSharedToast)
      && (insert.Failed? ==> r.0.(calls := f.calls) == f && r.1 == CreatePostErrorText(insert.message))
  {
  }

  /** `handleComment`: the toast is absent when a blank comment is ignored. */
  function CommentStep(f: FeedState, user: Option<User>, postId: string, profile: Option<ProfileNames>, insert: Outcome)
    : (r: (FeedState, Option<string>))
    ensures user.None? ==> r == (f, Some(SignInToCommentToast))
    ensures user.Some? && IsBlank(f.commentText) ==> r == (f, None)
    ensures user.Some? && !IsBlank(f.commentText) ==>
      && r.0.calls == f.calls + [InsertComment(CommentRow(postId, user.value.id, DisplayName(profile, user.value.email), f.commentText))]
      && r.0.(calls := f.calls, commentText := f.commentText) == f
      && r.0.commentText == (if insert.Done? then "" else f.commentText)
      && r.1 == Some(if insert.Done? then CommentAddedToast else CommentFailedToast)
  {
    if user.None? then (f, Some(SignInToCommentToast))
    else if Trim(f.commentText) == "" then (f, None)
    else
      var row := CommentRow(postId, user.value.id, DisplayName(profile, user.value.email), f.commentText);
      var calls := f.calls + [InsertComment(row)];
      if insert.Done? then (f.(commentText := "", calls := calls), Some(CommentAddedToast))
      else (f.(calls := calls), Some(CommentFailedToast))
  }

  /** The comment text is sent as typed, surrounding white space included; only the blank test trims. */
  lemma CommentSentUntrimmed(f: FeedState, user: User, postId: string, profile: Option<ProfileNames>, insert: Outcome)
    requires !IsBlank(f.commentText)
    ensures var r := CommentStep(f, Some(user), postId, profile, insert).0;
      && |r.calls| == |f.calls| + 1
      && r.calls[|f.calls|].comment.text == f.commentText
      && (IsSpace(f.commentText[0]) ==> r.calls[|f.calls|].comment.text != Trim(f.commentText))
  {
    var r := CommentStep(f, Some(user), postId, profile, insert);
    assert r.0.calls == f.calls + [InsertComment(CommentRow(postId, user.id, DisplayName(profile, user.email), f.commentText))];
  }

  class Feed {
    var title: string
    var content: string
    var selectedImage: Option<string>
    var commentText: string
    var userUpvotes: set<string>
    var calls: seq<StoreCall>

    function State(): FeedState
      reads this
    {
      FeedState(title, content, selectedImage, commentText, userUpvotes, calls)
    }

    constructor ()
      ensures State() == FeedState("", "", None, "", {}, [])
    {
      title := "";
      content := "";
      selectedImage := None;
      commentText := "";
      userUpvotes := {};
      calls := [];
    }

    /** `fetchUserUpvotes`: a successful query replaces the set with the post ids read; an error keeps it. */
    method FetchUserUpvotes(user: Option<User>, rows: Option<seq<string>>)
      modifies this`userUpvotes
      ensures userUpvotes == if user.Some? && rows.Some? then set p | p in rows.value else old(userUpvotes)
    {
      if user.Some? && rows.Some? {
        userUpvotes := set p | p in rows.value;
      }
    }

    /** `handleImageSelect`: the chosen file, or none, becomes the selection; the preview is not modelled. */
    method SelectImage(file: Option<string>)
      modifies this`selectedImage
      ensures selectedImage == file
    {
      selectedImage := file;
    }

    /** `handleUpvote`. */
    method HandleUpvote(user: Option<User>, postId: string, first: Outcome, second: Outcome) returns (toast: string)
      modifies this`userUpvotes, this`calls
      ensures old(calls) <= calls
      ensures (userUpvotes, calls[|old(calls)|..], toast) == Upvote(old(userUpvotes), user, postId, first, second)
    {
      if user.None? {
        assert calls[|calls|..] == [];
        toast := SignInToUpvoteToast;
        return;
      }
      var hasUpvoted := postId in userUpvotes;
      var pair := UpvoteCalls(hasUpvoted, postId, user.value.id);
      calls := calls + [pair[0]];
      if first.Failed? {
        assert calls[|old(calls)|..] == pair[..1];
        toast := UpvoteFailedToast;
        return;
      }
      calls := calls + [pair[1]];
      assert calls[|old(calls)|..] == pair;
      if second.Failed? {
        toast := UpvoteFailedToast;
        return;
      }
      if hasUpvoted {
        userUpvotes := userUpvotes - {postId};
        toast := UpvoteRemovedToast;
      } else {
        userUpvotes := userUpvotes + {postId};
        toast := UpvotedToast;
      }
    }

    /** `handleCreatePost`. */
    method HandleCreatePost(user: Option<User>, now: nat, upload: Result<string, Option<string>>,
                            profile: Option<ProfileNames>, insert: Outcome) returns (toast: string)
      modifies this`title, this`content, this`selectedImage, this`calls
      ensures (State(), toast) == CreatePost(old(State()), user, now, upload, profile, insert)
    {
      if user.None? {
        toast := SignInToPostToast;
        return;
      }
      if Trim(title) == "" || Trim(content) == "" {
        toast := FillPostToast;
        return;
      }
      toast := Share(user.value, now, upload, profile, insert);
    }

    /** The part of `handleCreatePost` after the guards. */
    method Share(u: User, now: nat, upload: Result<string, Option<string>>,
                 profile: Option<ProfileNames>, insert: Outcome) returns (toast: string)
      modifies this`title, this`content, this`selectedImage, this`calls
      ensures (State(), toast) == Publish(old(State()), u, now, upload, profile, insert)
    {
      ghost var before := State();
      calls := calls + UploadCalls(State(), u.id, now);
      ghost var uploaded := State();
      assert uploaded == before.(calls := before.calls + UploadCalls(before, u.id, now));
      if selectedImage.Some? && upload.Err? {
        toast := CreatePostErrorText(upload.error);
        assert Publish(before, u, now, upload, profile, insert) == (uploaded, toast);
        return;
      }
      var imageUrl := if selectedImage.Some? then Some(upload.value) else None;
      var row := PostRow(u.id, DisplayName(profile, u.email), title, content, imageUrl);
      assert Publish(before, u, now, upload, profile, insert) == Inserted(uploaded, row, insert);
      toast := Insert(row, insert);
    }

    /** The post insert and, when it succeeds, the form reset. */
    method Insert(row: PostRow, insert: Outcome) returns (toast: string)
      modifies this`title, this`content, this`selectedImage, this`calls
      ensures (State(), toast) == Inserted(old(State()), row, insert)
    {
      calls := calls + [InsertPost(row)];
      if insert.Failed? {
        toast := CreatePostErrorText(insert.message);
        return;
      }
      toast := PostSharedToast;
      title := "";
      content := "";
      selectedImage := None;
    }

    /** `handleComment`. */
    method HandleComment(user: Option<User>, postId: string, profile: Option<ProfileNames>, insert: Outcome)
      returns (toast: Option<string>)
      modifies this`commentText, this`calls
      ensures (State(), toast) == CommentStep(old(State()), user, postId, profile, insert)
    {
      ghost var before := State();
      if user.None? {
        toast := Some(SignInToCommentToast);
        return;
      }
      if Trim(commentText) == "" {
        toast := None;
        return;
      }
      var u := user.value;
      calls := calls + [InsertComment(CommentRow(postId, u.id, DisplayName(profile, u.email), commentText))];
      assert State() == before.(calls := calls);
      if insert.Done? {
        toast := Some(CommentAddedToast);
        commentText := "";
      } else {
        toast := Some(CommentFailedToast);
      }
    }

    /** `handleDeletePost`. */
    method HandleDeletePost(user: Option<User>, postId: string, authorId: string, outcome: Outcome) returns (toast: string)
      modifies this`calls
      ensures old(calls) <= calls
      ensures (calls[|old(calls)|..], toast) == DeleteStep(user, postId, authorId, outcome)
    {
      if user.None? || user.value.id != authorId {
        assert calls[|calls|..] == [];
        toast := NotYourPostToast;
        return;
      }
      calls := calls + [DeletePost(postId, user.value.id)];
      toast := if outcome.Done? then PostDeletedToast else DeleteFailedToast;
    }
  }
}
