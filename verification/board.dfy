/**
 * The board and comment router: the boards and comments it reads and writes
 * (as maps from document id to document), the trail of visited board titles
 * kept in the session, and the status codes the handlers answer with.
 */
module BoardRouter {
  import opened Http

  type BoardId = string
  type CommentId = string
  type Title = string

  /** A board document: a title and a content. */
  datatype Board = Board(title: Title, content: string)

  /** A comment document: the board it belongs to and its content. */
  datatype Comment = Comment(board: BoardId, content: string)

  type BoardStore = map<BoardId, Board>
  type CommentStore = map<CommentId, Comment>

  /** The most titles the session's board trail keeps. */
  const TrailCap: nat := 10

  // ---------------------------------------------------------------------------
  // The session's trail of visited board titles
  // ---------------------------------------------------------------------------

  /** The last `TrailCap` elements of `s` (all of `s` when it is shorter). */
  function MostRecent(s: seq<Title>): seq<Title> {
    if |s| <= TrailCap then s else s[|s| - TrailCap..]
  }

  /** `req.session.boardPath`: absent until the first board is visited. */
  class SessionBoardPath {
    var boardPath: Option<seq<Title>>

    ghost predicate Valid()
      reads this
    {
      boardPath.Some? ==> |boardPath.value| <= TrailCap
    }

    /** The trail as a list; an absent trail reads as empty. */
    function Titles(): seq<Title>
      reads this
    {
      if boardPath.Some? then boardPath.value else []
    }

    constructor ()
      ensures Valid() && boardPath == None
    {
      boardPath := None;
    }

    /** Record a visit: push the title, then shift once if the trail grew past the cap. */
    method Visit(title: Title)
      requires Valid()
      modifies this
      ensures Valid()
      ensures boardPath == Some(MostRecent(old(Titles()) + [title]))
      ensures old(boardPath) == None ==> boardPath == Some([title])
    {
      if boardPath.Some? {
        var path := boardPath.value + [title];
        if |path| > TrailCap {
          path := path[1..];
        }
        boardPath := Some(path);
      } else {
        assert old(Titles()) + [title] == [title];
        boardPath := Some([title]);
      }
    }
  }

  /** The trail after visiting `titles` in order, starting from an absent trail. */
  function Replay(titles: seq<Title>): seq<Title> {
    if titles == [] then []
    else MostRecent(Replay(titles[..|titles| - 1]) + [titles[|titles| - 1]])
  }

  /** A fresh session that visits `titles` in turn holds `Replay` of them. */
  method VisitAll(titles: seq<Title>) returns (session: SessionBoardPath)
    ensures fresh(session) && session.Valid()
    ensures session.boardPath == if titles == [] then None else Some(Replay(titles))
  {
    session := new SessionBoardPath();
    var i := 0;
    while i < |titles|
      invariant 0 <= i <= |titles|
      invariant session.Valid()
      invariant session.boardPath == if i == 0 then None else Some(Replay(titles[..i]))
    {
      session.Visit(titles[i]);
      assert titles[..i + 1][..i] == titles[..i];
      i := i + 1;
    }
    assert titles[..|titles|] == titles;
  }

  lemma VisitEndsWithTitle(s: seq<Title>, title: Title)
    ensures var r := MostRecent(s + [title]);
      0 < |r| <= TrailCap && r[|r| - 1] == title
  {
  }

  lemma {:induction false} VisitBelowCapKeepsAll(s: seq<Title>, title: Title)
    requires |s| < TrailCap
    ensures MostRecent(s + [title]) == s + [title]
  {
  }

  lemma {:induction false} VisitAtCapEvictsOldest(s: seq<Title>, title: Title)
    requires |s| == TrailCap
    ensures MostRecent(s + [title]) == s[1..] + [title]
  {
  }

  /** Trimming before a visit makes no difference to the trail after it. */
  lemma {:induction false} MostRecentAbsorbs(s: seq<Title>, title: Title)
    ensures MostRecent(MostRecent(s) + [title]) == MostRecent(s + [title])
  {
  }

  /** From an absent trail, the trail holds the last ten visited titles in visit order. */
  lemma {:induction false} ReplayKeepsMostRecent(titles: seq<Title>)
    ensures Replay(titles) == MostRecent(titles)
  {
    if titles != [] {
      var init, last := titles[..|titles| - 1], titles[|titles| - 1];
      ReplayKeepsMostRecent(init);
      MostRecentAbsorbs(init, last);
      assert init + [last] == titles;
    }
  }

  /** Eleven visits from an absent trail leave the last ten titles, oldest first. */
  lemma ElevenVisitsDropFirst(titles: seq<Title>)
    requires |titles| == TrailCap + 1
    ensures Replay(titles) == titles[1..]
  {
    ReplayKeepsMostRecent(titles);
  }

  // ---------------------------------------------------------------------------
  // Boards
  // ---------------------------------------------------------------------------

  /** The TypeError thrown by reading `title` of a null board. */
  const NullBoardTitle := HttpError("Cannot read properties of null (reading 'title')", None)

  /** GET /board: every board, status 200. */
  function ListBoards(boards: BoardStore): (r: Reply<BoardStore>)
    ensures r.status == 200 && r.body == Json(boards)
  {
    Reply(200, Json(boards), [])
  }

  /** POST /board: create a board under the fresh id the database assigns; status 200. */
  function CreateBoard(boards: BoardStore, id: BoardId, title: Title, content: string)
    : (r: (BoardStore, Reply<Board>))
    requires id !in boards
    ensures r.0.Keys == boards.Keys + {id}
    ensures forall other :: other in boards ==> r.0[other] == boards[other]
    ensures r.1.status == 200 && r.1.body == Json(r.0[id])
  {
    var board := Board(title, content);
    (boards[id := board], Reply(200, Json(board), []))
  }

  /**
   * GET /board/:boardId: answer the board with 200 after recording its title
   * in the trail. A missing board is null, and reading its title throws
   * before the trail is touched.
   */
  method FetchBoard(boards: BoardStore, boardId: BoardId, session: SessionBoardPath)
    returns (r: Outcome<Board>)
    requires session.Valid()
    modifies session
    ensures session.Valid()
    ensures boardId in boards ==>
      r == Sent(Reply(200, Json(boards[boardId]), [])) &&
      session.boardPath == Some(MostRecent(old(session.Titles()) + [boards[boardId].title]))
    ensures boardId !in boards ==>
      r == Rejected(NullBoardTitle) && session.boardPath == old(session.boardPath)
  {
    var board := Lookup(boards, boardId);
    if board.None? {
      return Rejected(NullBoardTitle);
    }
    session.Visit(board.value.title);
    r := Sent(Reply(200, Json(board.value), []));
  }

  /** PUT /board/:boardId: replace title and content, answer the updated board (or null); status 200. */
  function UpdateBoard(boards: BoardStore, boardId: BoardId, title: Title, content: string)
    : (r: (BoardStore, Reply<Board>))
    ensures r.0.Keys == boards.Keys
    ensures forall other :: other in boards && other != boardId ==> r.0[other] == boards[other]
    ensures boardId in boards ==> r.0[boardId] == Board(title, content) && r.1.body == Json(r.0[boardId])
    ensures boardId !in boards ==> r.1.body == JsonNull
    ensures r.1.status == 200
  {
    if boardId in boards then
      var board := Board(title, content);
      (boards[boardId := board], Reply(200, Json(board), []))
    else
      (boards, Reply(200, JsonNull, []))
  }

  /** DELETE /board/:boardId: remove the board if present; always 204 with no body. */
  function DeleteBoard(boards: BoardStore, boardId: BoardId): (r: (BoardStore, Reply<Board>))
    ensures r.0.Keys == boards.Keys - {boardId}
    ensures forall other :: other in r.0 ==> r.0[other] == boards[other]
    ensures r.1 == Reply(204, NoContent, [])
  {
    (boards - {boardId}, Reply(204, NoContent, []))
  }

  /** A created board is found again with the same title and content. */
  lemma CreateThenFind(boards: BoardStore, id: BoardId, title: Title, content: string)
    requires id !in boards
    ensures Lookup(CreateBoard(boards, id, title, content).0, id) == Some(Board(title, content))
  {
  }

  /** An update is what a later fetch sees (last write wins). */
  lemma UpdateThenFind(boards: BoardStore, id: BoardId, title: Title, content: string)
    requires id in boards
    ensures Lookup(UpdateBoard(boards, id, title, content).0, id) == Some(Board(title, content))
  {
  }

  /** After a delete the board is gone, so a later GET /board/:boardId throws. */
  lemma DeleteThenFind(boards: BoardStore, id: BoardId)
    ensures Lookup(DeleteBoard(boards, id).0, id) == None
  {
  }

  // ---------------------------------------------------------------------------
  // Comments
  // ---------------------------------------------------------------------------

  /** The filter `{ board: boardId, _id: commentId }` of the update and delete routes. */
  predicate Matches(comments: CommentStore, boardId: BoardId, commentId: CommentId) {
    commentId in comments && comments[commentId].board == boardId
  }

  /** The ids whose comment differs between two stores (added, removed or changed). */
  ghost function Changed(before: CommentStore, after: CommentStore): set<CommentId> {
    set id | id in before.Keys + after.Keys &&
             !(id in before && id in after && before[id] == after[id])
  }

  /** The mongoose `required` check on the comment's content: absent or "" fails. */
  const MissingContent := HttpError("Comment validation failed: content: Path `content` is required.", None)

  /** GET /board/:boardId/comments: the comments under `{ board: boardId }`; status 200. */
  function ListComments(comments: CommentStore, boardId: BoardId): (r: Reply<CommentStore>)
    ensures r.status == 200 && r.body.Json?
    ensures forall id :: id in r.body.value <==> Matches(comments, boardId, id)
    ensures forall id :: id in r.body.value ==> id in comments && r.body.value[id] == comments[id]
  {
    Reply(200, Json(map id | id in comments && comments[id].board == boardId :: comments[id]), [])
  }

  /** POST /board/:boardId/comments: create under the fresh id the database assigns; status 201. */
  function CreateComment(comments: CommentStore, boardId: BoardId, content: Option<string>, id: CommentId)
    : (r: (CommentStore, Outcome<Comment>))
    requires id !in comments
    ensures Truthy(content) ==>
      r.0 == comments[id := Comment(boardId, content.value)] &&
      r.1 == Sent(Reply(201, Json(Comment(boardId, content.value)), []))
    ensures !Truthy(content) ==> r.0 == comments && r.1 == Rejected(MissingContent)
  {
    if content.Some? && content.value != "" then
      var comment := Comment(boardId, content.value);
      (comments[id := comment], Sent(Reply(201, Json(comment), [])))
    else
      (comments, Rejected(MissingContent))
  }

  /**
   * PUT /board/:boardId/comments/:commentId: set the content of the comment
   * matching both ids; status 200 with the document as it was before the
   * update (mongoose's default), or null when nothing matched.
   */
  function UpdateComment(comments: CommentStore, boardId: BoardId, commentId: CommentId, content: string)
    : (r: (CommentStore, Reply<Comment>))
    ensures r.1.status == 200
    ensures Matches(comments, boardId, commentId) ==>
      r.0 == comments[commentId := Comment(boardId, content)] && r.1.body == Json(comments[commentId])
    ensures !Matches(comments, boardId, commentId) ==> r.0 == comments && r.1.body == JsonNull
  {
    if commentId in comments && comments[commentId].board == boardId then
      (comments[commentId := comments[commentId].(content := content)],
       Reply(200, Json(comments[commentId]), []))
    else
      (comments, Reply(200, JsonNull, []))
  }

  /** DELETE /board/:boardId/comments/:commentId: remove the matching comment; always 204, no body. */
  function DeleteComment(comments: CommentStore, boardId: BoardId, commentId: CommentId)
    : (r: (CommentStore, Reply<Comment>))
    ensures r.1 == Reply(204, NoContent, [])
    ensures Matches(comments, boardId, commentId) ==> r.0 == comments - {commentId}
    ensures !Matches(comments, boardId, commentId) ==> r.0 == comments
  {
    var deleted := if commentId in comments && comments[commentId].board == boardId
                   then comments - {commentId} else comments;
    (deleted, Reply(204, NoContent, []))
  }

  /** A created comment is listed under its own board and under no other. */
  lemma CreatedCommentListedOnlyUnderItsBoard(comments: CommentStore, boardId: BoardId,
                                              content: string, id: CommentId, other: BoardId)
    requires id !in comments && content != "" && other != boardId
    ensures var after := CreateComment(comments, boardId, Some(content), id).0;
      id in ListComments(after, boardId).body.value &&
      id !in ListComments(after, other).body.value &&
      ListComments(after, other) == ListComments(comments, other)
  {
    var after := CreateComment(comments, boardId, Some(content), id).0;
    assert ListComments(after, other).body.value == ListComments(comments, other).body.value;
  }

  /**
   * An update changes at most the one comment that matches both ids, keeps
   * it under its board, and leaves a same-id comment of another board alone.
   */
  lemma UpdateIsScoped(comments: CommentStore, boardId: BoardId, commentId: CommentId, content: string)
    ensures var after := UpdateComment(comments, boardId, commentId, content).0;
      Changed(comments, after) <= {commentId} &&
      (commentId in Changed(comments, after) ==> Matches(comments, boardId, commentId)) &&
      after.Keys == comments.Keys &&
      (forall id :: id in after ==> after[id].board == comments[id].board)
  {
  }

  /** A delete removes at most the one comment that matches both ids. */
  lemma DeleteIsScoped(comments: CommentStore, boardId: BoardId, commentId: CommentId)
    ensures var after := DeleteComment(comments, boardId, commentId).0;
      Changed(comments, after) <= {commentId} &&
      (commentId in Changed(comments, after) ==> Matches(comments, boardId, commentId) && commentId !in after) &&
      (forall id :: id in after ==> id in comments && after[id] == comments[id])
  {
  }
}
