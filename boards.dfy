/** Community boards (`Format3BHandler`): reading, adding and deleting
    posts. The board cache is the sequence of all cached boards; a request
    acts on the first board whose index matches. */
module Boards {
  import opened Common
  import opened Text

  /** A post; `recipient` is set on mail and absent on a public post. */
  datatype Post = Post(subject: string, message: string, sender: string, recipient: Option<string>, postId: u16)

  datatype Board = Board(index: int, posts: seq<Post>)

  /** The position of the first board with `index`. */
  function FindBoard(boards: seq<Board>, index: int): (r: Option<nat>)
    ensures r.Some? ==> r.value < |boards| && boards[r.value].index == index
    ensures r.Some? ==> forall j :: 0 <= j < r.value ==> boards[j].index != index
    ensures r.None? ==> forall j :: 0 <= j < |boards| ==> boards[j].index != index
  {
    FirstIndex(boards, (b: Board) => b.index == index)
  }

  /** A new post: its id is the board's post count plus one, as a 16-bit value. */
  function AddPost(posts: seq<Post>, subject: string, message: string, sender: string, recipient: Option<string>): (r: seq<Post>)
    ensures |r| == |posts| + 1 && r[..|posts|] == posts
    ensures r[|posts|] == Post(subject, message, sender, recipient, ToUShort(|posts| + 1))
  {
    posts + [Post(subject, message, sender, recipient, ToUShort(|posts| + 1))]
  }

  /** Post ids count up from one along the board. */
  predicate Numbered(posts: seq<Post>) {
    forall i :: 0 <= i < |posts| ==> posts[i].postId == i + 1
  }

  /** Adding keeps a board numbered while it has fewer than 0xFFFF posts. */
  lemma AddKeepsNumbering(posts: seq<Post>, subject: string, message: string, sender: string, recipient: Option<string>)
    requires Numbered(posts) && |posts| < 0xFFFF
    ensures Numbered(AddPost(posts, subject, message, sender, recipient))
  {
  }

  /** After a delete, the next post reuses an id still on the board: ids
      are unique only while nothing is deleted. */
  lemma AddAfterDeleteRepeatsId(p: Post, q: Post)
    requires p.postId == 1 && q.postId == 2
    ensures var after := AddPost(RemoveAt([p, q], 0), "", "", "", None);
            after[0].postId == after[1].postId
  {
  }

  function RemoveAt(posts: seq<Post>, i: nat): (r: seq<Post>)
    requires i < |posts|
    ensures |r| == |posts| - 1
    ensures forall k :: 0 <= k < i ==> r[k] == posts[k]
    ensures forall k :: i <= k < |r| ==> r[k] == posts[k + 1]
  {
    posts[..i] + posts[i + 1..]
  }

  datatype DeleteOutcome =
    | Silent             // no such board, or an empty one: nothing is sent
    | Deleted(posts: seq<Post>)
    | CantDoThat         // not the owner, no such post, or a post without an owner

  /** The owner who may delete a post: the recipient on board 0, the
      sender elsewhere. */
  function Owner(boardIndex: int, p: Post): (r: Option<string>)
    ensures r.None? <==> boardIndex == 0 && p.recipient.None?
    ensures boardIndex == 0 ==> r == p.recipient
    ensures boardIndex != 0 ==> r == Some(p.sender)
  {
    if boardIndex == 0 then p.recipient else Some(p.sender)
  }

  /** Deleting post `topicIndex` (counted from one). The post at that
      position goes, and only when its owner equals the user ignoring case;
      a position off the board, or a missing owner, is refused. */
  function Delete(posts: seq<Post>, boardIndex: int, topicIndex: int, username: string): (r: DeleteOutcome)
    ensures r.Silent? <==> posts == []
    ensures r.Deleted? <==>
              (&& 1 <= topicIndex <= |posts|
               && Owner(boardIndex, posts[topicIndex - 1]).Some?
               && EqualsIgnoreCase(Owner(boardIndex, posts[topicIndex - 1]).value, username))
    ensures r.Deleted? ==> |r.posts| == |posts| - 1
    ensures r.Deleted? ==> forall k :: 0 <= k < topicIndex - 1 ==> r.posts[k] == posts[k]
    ensures r.Deleted? ==> forall k :: topicIndex - 1 <= k < |r.posts| ==> r.posts[k] == posts[k + 1]
  {
    if posts == [] then Silent
    else if topicIndex - 1 < 0 || topicIndex - 1 >= |posts| then CantDoThat
    else match Owner(boardIndex, posts[topicIndex - 1])
      case None => CantDoThat
      case Some(owner) =>
        if EqualsIgnoreCase(owner, username) then Deleted(RemoveAt(posts, topicIndex - 1)) else CantDoThat
  }

  /** A delete takes out exactly one post, the one asked for: the board
      afterwards, with that post put back in place, is the board before. */
  lemma DeleteRemovesOne(posts: seq<Post>, boardIndex: int, topicIndex: int, username: string)
    requires Delete(posts, boardIndex, topicIndex, username).Deleted?
    ensures var r := Delete(posts, boardIndex, topicIndex, username).posts;
            r[..topicIndex - 1] + [posts[topicIndex - 1]] + r[topicIndex - 1..] == posts
  {
  }

  /** Only a post's owner can delete it, under any letter case. */
  lemma DeleteNeedsOwner(posts: seq<Post>, boardIndex: int, topicIndex: int, username: string, other: string)
    requires Delete(posts, boardIndex, topicIndex, username).Deleted?
    ensures Delete(posts, boardIndex, topicIndex, other).Deleted? <==> ToLower(other) == ToLower(username)
  {
  }

  datatype ReadOutcome = Found(post: Post) | Unavailable | ReadFault

  /** Reading post `topicIndex`: found when the board exists and has more
      than `topicIndex - 1` posts; a position below one is not checked and
      faults. */
  function Read(board: Option<Board>, topicIndex: int): (r: ReadOutcome)
    ensures r.Found? <==> board.Some? && 1 <= topicIndex <= |board.value.posts|
    ensures r.Found? ==> r.post == board.value.posts[topicIndex - 1]
    ensures r.ReadFault? <==> board.Some? && topicIndex < 1
  {
    var index := topicIndex - 1;
    if board.Some? && |board.value.posts| > index then
      if index < 0 then ReadFault else Found(board.value.posts[index])
    else Unavailable
  }

  datatype PostKind = Mail | PublicPost

  /** `GlobalBoardCache`, flattened into one sequence of boards. */
  class BoardCache {
    var boards: seq<Board>

    constructor (boards: seq<Board>)
      ensures this.boards == boards
    {
      this.boards := boards;
    }

    /** Types 0x06 (mail, with a recipient) and 0x04 (public post): append
        to the first board with the index; no board, no change. */
    method Submit(kind: PostKind, boardIndex: int, subject: string, message: string, sender: string, to: string)
      returns (delivered: bool)
      modifies this
      ensures delivered <==> FindBoard(old(boards), boardIndex).Some?
      ensures !delivered ==> boards == old(boards)
      ensures delivered ==>
                var i := FindBoard(old(boards), boardIndex).value;
                var recipient := if kind == Mail then Some(to) else None;
                boards == old(boards)[i := old(boards)[i].(posts := AddPost(old(boards)[i].posts, subject, message, sender, recipient))]
    {
      var found := FindBoard(boards, boardIndex);
      if found.None? {
        return false;
      }
      var i := found.value;
      var recipient := if kind == Mail then Some(to) else None;
      boards := boards[i := boards[i].(posts := AddPost(boards[i].posts, subject, message, sender, recipient))];
      delivered := true;
    }

    /** Type 0x05: delete a post from the first board with the index. */
    method DeletePost(boardIndex: int, topicIndex: int, username: string) returns (outcome: DeleteOutcome)
      modifies this
      ensures FindBoard(old(boards), boardIndex).None? ==> outcome == Silent
      ensures FindBoard(old(boards), boardIndex).Some? ==>
                outcome == Delete(old(boards)[FindBoard(old(boards), boardIndex).value].posts, boardIndex, topicIndex, username)
      ensures outcome.Deleted? ==>
                var i := FindBoard(old(boards), boardIndex).value;
                boards == old(boards)[i := old(boards)[i].(posts := outcome.posts)]
      ensures !outcome.Deleted? ==> boards == old(boards)
    {
      var found := FindBoard(boards, boardIndex);
      if found.None? {
        return Silent;
      }
      var i := found.value;
      outcome := Delete(boards[i].posts, boardIndex, topicIndex, username);
      if outcome.Deleted? {
        boards := boards[i := boards[i].(posts := outcome.posts)];
      }
    }

    /** Type 0x03: read a post from the first board with the index. */
    function ReadPost(boardIndex: int, topicIndex: int): (r: ReadOutcome)
      reads this
      ensures r.Found? ==> exists i :: 0 <= i < |boards| && boards[i].index == boardIndex && r.post in boards[i].posts
      ensures var found := FindBoard(boards, boardIndex);
              && (r.Found? <==> found.Some? && 1 <= topicIndex <= |boards[found.value].posts|)
              && (r.Found? ==> r.post == boards[found.value].posts[topicIndex - 1])
              && (r.ReadFault? <==> found.Some? && topicIndex < 1)
    {
      var found := FindBoard(boards, boardIndex);
      Read(if found.Some? then Some(boards[found.value]) else None, topicIndex)
    }
  }
}
