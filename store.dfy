/**
 * The rows the views read and write, as the ORM holds them: pages, comments
 * and votes, and the keys present in the page cache.  Comment ids are
 * handed out by an auto-increment column and rows are never removed (a
 * delete is soft), so the comment with id `k` is row `k - 1`.
 */
module Store {
  import opened Wrappers
  import opened Text
  import opened Models

  /** `page_{page_id}`: the cache key of a page. */
  function CacheKey(pageId: int): string {
    "page_" + IntToString(pageId)
  }

  /** Distinct pages have distinct cache keys. */
  lemma CacheKeyInjective(p: int, q: int)
    ensures CacheKey(p) == CacheKey(q) ==> p == q
  {
    PrefixedIntInjective("page_", p, q);
  }

  predicate SequentialIds(comments: seq<Comment>) {
    forall k :: 0 <= k < |comments| ==> comments[k].id == k + 1
  }

  /** `comment.save()` on an existing row: the row with the comment's id gets its new field values. */
  function ReplaceComment(comments: seq<Comment>, c: Comment): (r: seq<Comment>)
    ensures |r| == |comments|
    ensures forall k :: 0 <= k < |r| ==> r[k] == if comments[k].id == c.id then c else comments[k]
  {
    if comments == [] then []
    else [if comments[0].id == c.id then c else comments[0]] + ReplaceComment(comments[1..], c)
  }

  /** With auto-increment ids, the lookup by id finds row `id - 1`, and nothing for any other id. */
  lemma FindById(comments: seq<Comment>, id: int)
    requires SequentialIds(comments)
    ensures FindComment(comments, id) == if 1 <= id <= |comments| then Some(comments[id - 1]) else None
  {
    if 1 <= id <= |comments| {
      var r := FindComment(comments, id);
      assert comments[id - 1].id == id;
      assert r.Some?;
      var j :| 0 <= j < |comments| && comments[j] == r.value;
      assert comments[j].id == j + 1;
    }
  }

  /** Saving a stored comment keeps the ids, and afterwards the lookup finds the saved values under its id and the old ones under every other id. */
  lemma FindAfterReplace(comments: seq<Comment>, c: Comment, id: int)
    requires SequentialIds(comments)
    ensures SequentialIds(ReplaceComment(comments, c))
    ensures FindComment(ReplaceComment(comments, c), id) ==
            if id == c.id && 1 <= id <= |comments| then Some(c) else FindComment(comments, id)
  {
    var r := ReplaceComment(comments, c);
    assert SequentialIds(r);
    FindById(comments, id);
    FindById(r, id);
  }

  class Database {
    var pages: set<PageId>
    var comments: seq<Comment>
    var votes: seq<Vote>

    /** Auto-increment comment ids and the one-vote-per-(user, comment) constraint. */
    ghost predicate Valid()
      reads this
    {
      SequentialIds(comments) && UniqueVotes(votes)
    }

    /** `comment.save()` on a stored comment: its row takes the new values, and the lookup by its id finds them. */
    method Save(c: Comment)
      requires Valid()
      requires FindComment(comments, c.id).Some?
      modifies this
      ensures Valid()
      ensures pages == old(pages) && votes == old(votes)
      ensures comments == ReplaceComment(old(comments), c)
      ensures |comments| == |old(comments)|
      ensures FindComment(comments, c.id) == Some(c)
    {
      FindById(comments, c.id);
      FindAfterReplace(comments, c, c.id);
      comments := ReplaceComment(comments, c);
    }

    constructor (pages: set<PageId>)
      ensures Valid()
      ensures this.pages == pages && comments == [] && votes == []
    {
      this.pages := pages;
      comments := [];
      votes := [];
    }
  }

  /** The page cache, reduced to the keys it holds. */
  class Cache {
    var keys: set<string>

    constructor ()
      ensures keys == {}
    {
      keys := {};
    }

    method Set(key: string)
      modifies this
      ensures keys == old(keys) + {key}
    {
      keys := keys + {key};
    }

    method Delete(key: string)
      modifies this
      ensures keys == old(keys) - {key}
    {
      keys := keys - {key};
    }
  }
}
