/** The announcement feed (src/components/portal/DashboardView.tsx):
    posting puts a new update in front, deleting removes by id. */
module Dashboard {
  import opened Wrappers
  import opened Text
  import opened Data
  import Seqs

  /** The post `handlePost` builds for the signed-in user. */
  function NewPost(now: int, content: string, author: string, role: string): Post
  {
    Post(now, author, role, content, "Just now", Update)
  }

  /** The feed after `handlePost` with input text `content`. */
  function Posted(posts: seq<Post>, content: string, author: string, role: string, now: int): (r: seq<Post>)
    ensures IsBlank(content) ==> r == posts
    ensures !IsBlank(content) ==> |r| == |posts| + 1 && r[1..] == posts
    ensures !IsBlank(content) ==> r[0].content == content && r[0].kind == Update && r[0].date == "Just now"
    ensures !IsBlank(content) ==> r[0].author == author && r[0].role == role && r[0].id == now
  {
    if IsBlank(content) then posts else [NewPost(now, content, author, role)] + posts
  }

  /** The feed after `deletePost(id)`; any user may delete any post. */
  function Deleted(posts: seq<Post>, id: int): (r: seq<Post>)
    ensures forall i :: 0 <= i < |r| ==> r[i].id != id
  {
    Seqs.Filter(posts, (p: Post) => p.id != id)
  }

  /** Deleting keeps exactly the posts with another id, in order. */
  lemma DeletedKeepsOthers(posts: seq<Post>, id: int, p: Post)
    ensures p in Deleted(posts, id) <==> p in posts && p.id != id
    ensures Seqs.IsSubsequence(Deleted(posts, id), posts)
  {
    Seqs.FilterMembership(posts, (p: Post) => p.id != id, p);
    Seqs.FilterIsSubsequence(posts, (p: Post) => p.id != id);
  }

  /** Deleting a post just published takes the feed back to what it was,
      when its id was not in use. */
  lemma DeleteUndoesPost(posts: seq<Post>, content: string, author: string, role: string, now: int)
    requires forall i :: 0 <= i < |posts| ==> posts[i].id != now
    ensures Deleted(Posted(posts, content, author, role, now), now) == posts
  {
    var r := Posted(posts, content, author, role, now);
    Seqs.FilterKeepsAll(posts, (p: Post) => p.id != now);
    if !IsBlank(content) {
      assert r == [r[0]] + posts;
      Seqs.FilterCons(r[0], posts, (p: Post) => p.id != now);
    }
  }

  /** The view's state: the feed and the text of the post box. */
  class DashboardView {
    var posts: seq<Post>
    var newPost: string

    constructor(saved: Option<seq<Post>>)
      ensures posts == saved.GetOr(DefaultPosts) && newPost == ""
    {
      posts := saved.GetOr(DefaultPosts);
      newPost := "";
    }

    method SetNewPost(text: string)
      modifies this
      ensures posts == old(posts) && newPost == text
    {
      newPost := text;
    }

    /** `handlePost`: a blank box changes nothing; otherwise the post goes
        in front and the box is cleared. */
    method HandlePost(now: int, author: string, role: string)
      modifies this
      ensures posts == Posted(old(posts), old(newPost), author, role, now)
      ensures newPost == if IsBlank(old(newPost)) then old(newPost) else ""
    {
      if IsBlank(newPost) {
        return;
      }
      posts := [NewPost(now, newPost, author, role)] + posts;
      newPost := "";
    }

    method DeletePost(id: int)
      modifies this
      ensures posts == Deleted(old(posts), id) && newPost == old(newPost)
    {
      posts := Deleted(posts, id);
    }
  }
}
