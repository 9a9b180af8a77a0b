/** The forbidden-link filter: a set of forbidden links, kept in a file as a
    list, and a listener that removes any message containing one of them. */
module Links {

  /** `link` occurs in `content` starting at position `i`. */
  predicate OccursAt(link: string, content: string, i: int)
  {
    0 <= i <= |content| - |link| && content[i..i + |link|] == link
  }

  /** Python's `link in content` on strings: `link` is a substring. */
  predicate OccursIn(link: string, content: string)
  {
    exists i | 0 <= i <= |content| - |link| :: OccursAt(link, content, i)
  }

  /** Some forbidden link occurs in `content`. */
  predicate Forbidden(links: set<string>, content: string)
  {
    exists link :: link in links && OccursIn(link, content)
  }

  predicate NoDuplicates(l: seq<string>)
  {
    forall i, j :: 0 <= i < j < |l| ==> l[i] != l[j]
  }

  /** `l` lists the members of `links`, each exactly once. */
  ghost predicate Enumerates(l: seq<string>, links: set<string>)
  {
    (forall x :: x in l <==> x in links) && NoDuplicates(l)
  }

  /** The contents of the links file: no file at all, or a stored list. */
  datatype Stored = NoFile | File(links: seq<string>)

  /** A list of distinct strings has as many elements as the set of its
      elements. */
  lemma {:induction false} DistinctListSize(l: seq<string>, links: set<string>)
    requires Enumerates(l, links)
    ensures |l| == |links|
    decreases |l|
  {
    if l != [] {
      var last := l[|l| - 1];
      var init := l[..|l| - 1];
      assert forall x :: x in init <==> x in links - {last} by {
        forall x ensures x in init <==> x in links - {last} {
          if x in init {
            var i :| 0 <= i < |init| && init[i] == x;
            assert l[i] == x && i < |l| - 1;
          }
          if x in links - {last} {
            assert x in l;
            var i :| 0 <= i < |l| && l[i] == x;
            assert i != |l| - 1;
            assert init[i] == x;
          }
        }
      }
      DistinctListSize(init, links - {last});
    } else {
      assert forall x :: x !in links by {
        forall x ensures x !in links {
          assert x !in l;
        }
      }
      assert links == {};
    }
  }

  /** `set(json.load(f))`, or the empty set when there is no file. */
  function LoadLinks(stored: Stored): (links: set<string>)
    ensures stored.NoFile? ==> links == {}
    ensures stored.File? ==> forall x :: x in links <==> x in stored.links
  {
    match stored
    case NoFile => {}
    case File(l) => set x | x in l
  }

  /** `list(links)`: the members of the set in some order, each once. */
  method ListOf(links: set<string>) returns (l: seq<string>)
    ensures Enumerates(l, links)
    ensures |l| == |links|
  {
    var rest := links;
    l := [];
    while rest != {}
      invariant rest <= links
      invariant forall x :: x in l <==> x in links && x !in rest
      invariant NoDuplicates(l)
      decreases |rest|
    {
      var x :| x in rest;
      l := l + [x];
      rest := rest - {x};
    }
    DistinctListSize(l, links);
  }

  /** Loading what was saved gives back the same set. */
  lemma LoadAfterSave(links: set<string>, l: seq<string>)
    requires Enumerates(l, links)
    ensures LoadLinks(File(l)) == links
  {
  }

  datatype LinkMessage = LinkMessage(fromBot: bool, content: string)

  /** One removal attempt: delete the message, then post a notice.  The
      notice is posted only when the deletion succeeded and the send itself
      succeeds; a failure of either is caught and ends the attempt. */
  datatype Removal = Removal(link: string, deleted: bool, noticed: bool)

  datatype AddReply = AlreadyForbidden | Added(link: string)

  class LinkManager {
    var forbiddenLinks: set<string>
    /** The forbidden-links file. */
    var stored: Stored

    constructor (stored: Stored)
      ensures forbiddenLinks == LoadLinks(stored) && this.stored == stored
    {
      forbiddenLinks := LoadLinks(stored);
      this.stored := stored;
    }

    /** Write the set to the file as a list. */
    method SaveLinks()
      modifies this`stored
      ensures stored.File? && Enumerates(stored.links, forbiddenLinks)
      ensures LoadLinks(stored) == forbiddenLinks
    {
      var l := ListOf(forbiddenLinks);
      stored := File(l);
      LoadAfterSave(forbiddenLinks, l);
    }

    /** The `addlink` command: refuse a link that is already forbidden,
        otherwise add it and save. */
    method AddLink(link: string) returns (reply: AddReply)
      modifies this
      ensures old(link in forbiddenLinks) ==>
        reply == AlreadyForbidden && forbiddenLinks == old(forbiddenLinks) && stored == old(stored)
      ensures old(link !in forbiddenLinks) ==>
        reply == Added(link) && forbiddenLinks == old(forbiddenLinks) + {link} &&
        stored.File? && Enumerates(stored.links, forbiddenLinks)
    {
      if link in forbiddenLinks {
        return AlreadyForbidden;
      }
      forbiddenLinks := forbiddenLinks + {link};
      SaveLinks();
      reply := Added(link);
    }

    /** The message listener: scan the forbidden links in some order and act
        on the first one the message contains, then stop. */
    method OnMessage(msg: LinkMessage, deleteSucceeds: bool, noticeSucceeds: bool) returns (removals: seq<Removal>)
      ensures msg.fromBot ==> removals == []
      ensures |removals| <= 1
      ensures |removals| == 1 <==> !msg.fromBot && Forbidden(forbiddenLinks, msg.content)
      ensures forall r :: r in removals ==>
        r.link in forbiddenLinks && OccursIn(r.link, msg.content) && r.deleted == deleteSucceeds &&
        r.noticed == (deleteSucceeds && noticeSucceeds)
    {
      removals := [];
      if msg.fromBot {
        return;
      }
      var rest := forbiddenLinks;
      while rest != {}
        invariant rest <= forbiddenLinks
        invariant removals == []
        invariant forall x :: x in forbiddenLinks && x !in rest ==> !OccursIn(x, msg.content)
        decreases |rest|
      {
        var link :| link in rest;
        if OccursIn(link, msg.content) {
          removals := removals + [Removal(link, deleteSucceeds, deleteSucceeds && noticeSucceeds)];
          break;
        }
        rest := rest - {link};
      }
    }
  }
}
