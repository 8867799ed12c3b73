/** The name node's table-creation barrier.

    A client asks for a table; the first to ask makes the name node tell every server; nobody is
    answered until all servers have; and when every client has been answered for every table, that
    is announced. */
module NameNode {
  import opened VectorClocks

  datatype Info = Info(clientsReplied: nat, serversReplied: nat, waiting: seq<int>)

  datatype Event = Reply(bg: int, table: int) | TellServers(table: int) | CreatedAllTables

  /** How many clients and servers there are, and how many tables will be created. */
  datatype Sizes = Sizes(clients: nat, servers: nat, tables: nat)

  /** What has happened for a table: who has asked and who has been answered, in that order, and how
      many server replies have arrived. */
  datatype Story = Story(asked: seq<int>, answered: seq<int>, replied: nat)

  type Infos = map<int, Info>
  type Stories = map<int, Story>

  /** The counts kept are those of the replies that arrived. No more ask for a table than there are
      clients; nobody is answered until all servers have replied, and then nobody waits; whoever asked
      has been answered, once, or waits. */
  ghost predicate InfoOk(n: Sizes, info: Info, story: Story) {
    && info.serversReplied == story.replied <= n.servers && |story.asked| <= n.clients
    && story.asked == story.answered + info.waiting && |story.answered| == info.clientsReplied
    && (if story.replied == n.servers then info.waiting == [] else story.answered == [])
  }

  ghost predicate TableOk(n: Sizes, tables: Infos, stories: Stories, t: int) {
    t in tables && t in stories && InfoOk(n, tables[t], stories[t])
  }

  ghost predicate TablesOk(n: Sizes, tables: Infos, stories: Stories) {
    && tables.Keys == stories.Keys
    && forall t {:trigger TableOk(n, tables, stories, t)} | t in tables :: TableOk(n, tables, stories, t)
  }

  ghost predicate Complete(n: Sizes, tables: Infos, t: int) {
    t in tables && tables[t].clientsReplied == n.clients
  }

  /** Every client has been answered for every table. */
  ghost predicate AllDone(n: Sizes, tables: Infos) {
    |tables| == n.tables && forall t {:trigger Complete(n, tables, t)} | t in tables :: Complete(n, tables, t)
  }

  lemma OneTable(n: Sizes, tables: Infos, stories: Stories, t: int, info: Info, story: Story)
    requires TablesOk(n, tables, stories) && InfoOk(n, info, story)
    ensures TablesOk(n, tables[t := info], stories[t := story])
    ensures t in tables ==> |tables[t := info]| == |tables|
    ensures t !in tables ==> |tables[t := info]| == |tables| + 1
  {
    var tables', stories' := tables[t := info], stories[t := story];
    forall x | x in tables' ensures TableOk(n, tables', stories', x) {
      assert x != t ==> TableOk(n, tables, stories, x);
    }
    assert tables'.Keys == tables.Keys + {t};
  }

  lemma NotDone(n: Sizes, tables: Infos, t: int)
    requires t in tables && tables[t].clientsReplied != n.clients
    ensures !AllDone(n, tables)
  {
    assert !Complete(n, tables, t);
  }

  ghost function Replies(bgs: seq<int>, t: int): seq<Event> {
    seq(|bgs|, i requires 0 <= i < |bgs| => Reply(bgs[i], t))
  }

  /** Who is told by `events` that table `t` is there, in order. */
  ghost function Told(events: seq<Event>, t: int): seq<int> {
    if events == [] then []
    else (if events[0].Reply? && events[0].table == t then [events[0].bg] else []) + Told(events[1..], t)
  }

  /** Exactly `who` is told of table `t`, and nobody of any other. */
  ghost predicate ToldOnly(events: seq<Event>, t: int, who: seq<int>) {
    Told(events, t) == who && forall e | e in events && e.Reply? :: e.table == t
  }

  lemma {:induction false} ToldReplies(bgs: seq<int>, t: int, more: seq<Event>)
    requires more == [] || more == [CreatedAllTables]
    ensures ToldOnly(Replies(bgs, t) + more, t, bgs)
  {
    var events := Replies(bgs, t) + more;
    if bgs == [] {
      assert events == more;
    } else {
      ToldReplies(bgs[1..], t, more);
      assert events[0] == Reply(bgs[0], t) && events[1..] == Replies(bgs[1..], t) + more;
      assert Told(events, t) == [bgs[0]] + bgs[1..];
    }
  }

  ghost function Announcement(n: Sizes, tables: Infos): seq<Event> {
    if AllDone(n, tables) then [CreatedAllTables] else []
  }

  class NameNodeThread {
    const n: Sizes
    var tables: Infos

    /** Per table, what has happened; and the announcements made. */
    ghost var stories: Stories
    ghost var announced: nat

    ghost predicate Valid()
      reads this
    {
      Settled() && announced == if tables != map[] && AllDone(n, tables) then 1 else 0
    }

    /** All but a possible announcement is as it should be. */
    ghost predicate Settled()
      reads this
    {
      n.clients > 0 && n.servers > 0 && |tables| <= n.tables && TablesOk(n, tables, stories)
    }

    constructor (sizes: Sizes)
      requires sizes.clients > 0 && sizes.servers > 0
      ensures Valid() && tables == map[] && announced == 0 && n == sizes && stories == map[]
    {
      n, tables, stories, announced := sizes, map[], map[], 0;
    }

    /** Between any two calls: nobody has been answered for a table before all servers have replied,
        and from then on everybody who has asked. */
    lemma NobodyEarlyNobodyLeft(t: int)
      requires Valid() && t in tables
      ensures t in stories && stories[t].replied <= n.servers
      ensures stories[t].answered == if stories[t].replied == n.servers then stories[t].asked else []
    {
      assert TableOk(n, tables, stories, t);
    }

    method HaveCreatedAllTables() returns (all: bool)
      requires |tables| <= n.tables
      ensures all <==> AllDone(n, tables)
    {
      if |tables| < n.tables {
        return false;
      }
      var todo := tables.Keys;
      while todo != {}
        invariant todo <= tables.Keys && forall t | t in tables && t !in todo :: Complete(n, tables, t)
        decreases |todo|
      {
        NonEmpty(todo);
        var t :| t in todo;
        if tables[t].clientsReplied != n.clients {
          NotDone(n, tables, t);
          return false;
        }
        todo := todo - {t};
      }
      return true;
    }

    /** The announcement, if this was the last answer missing. */
    method Announce() returns (events: seq<Event>)
      requires Settled() && tables != map[] && announced == 0
      modifies this`announced
      ensures Valid() && announced == |Announcement(n, tables)|
      ensures events == Announcement(n, tables)
    {
      var all := HaveCreatedAllTables();
      if all {
        announced := 1;
        return [CreatedAllTables];
      }
      return [];
    }

    /** Table `t`'s entry and story change. */
    method SetTable(t: int, info: Info, ghost story: Story)
      requires Settled() && t in tables && InfoOk(n, info, story)
      modifies this`tables, this`stories
      ensures Settled() && tables == old(tables)[t := info] && stories == old(stories)[t := story]
    {
      OneTable(n, tables, stories, t, info, story);
      tables := tables[t := info];
      stories := stories[t := story];
    }

    /** While someone is still to be answered, there was no announcement. */
    lemma NotAnnounced(t: int)
      requires Valid() && t in tables && (|stories[t].asked| < n.clients || stories[t].replied < n.servers)
      ensures InfoOk(n, tables[t], stories[t]) && announced == 0 && tables[t].clientsReplied < n.clients
    {
      assert TableOk(n, tables, stories, t);
      NotDone(n, tables, t);
    }

    /** All servers have replied: the asker is answered at once. */
    method AnswerNow(sender: int, t: int) returns (events: seq<Event>)
      requires Valid() && t in tables && |stories[t].asked| < n.clients && stories[t].replied == n.servers
      modifies this
      ensures Valid() && announced == old(announced) + |Announcement(n, tables)|
      ensures var s := old(stories)[t];
        stories == old(stories)[t := s.(asked := s.asked + [sender], answered := s.answered + [sender])]
      ensures events == [Reply(sender, t)] + Announcement(n, tables) && ToldOnly(events, t, [sender])
    {
      NotAnnounced(t);
      var info := tables[t];
      ghost var s := stories[t];
      SetTable(t, info.(clientsReplied := info.clientsReplied + 1),
               s.(asked := s.asked + [sender], answered := s.answered + [sender]));
      var more := Announce();
      events := [Reply(sender, t)] + more;
      ToldReplies([sender], t, more);
      assert Replies([sender], t) == [Reply(sender, t)];
    }

    /** Some server has not replied: the asker waits. */
    method Enqueue(sender: int, t: int)
      requires Valid() && t in tables && |stories[t].asked| < n.clients && stories[t].replied < n.servers
      modifies this`tables, this`stories
      ensures Valid() && stories == old(stories)[t := old(stories)[t].(asked := old(stories)[t].asked + [sender])]
    {
      NotAnnounced(t);
      var info := tables[t];
      SetTable(t, info.(waiting := info.waiting + [sender]), stories[t].(asked := stories[t].asked + [sender]));
      NotDone(n, tables, t);
    }

    /** The first request for a table: an entry is made, the servers are told, the asker waits. */
    method FirstRequest(sender: int, t: int) returns (events: seq<Event>)
      requires Valid() && t !in tables && |tables| < n.tables
      modifies this`tables, this`stories
      ensures Valid() && stories == old(stories)[t := Story([sender], [], 0)]
      ensures events == [TellServers(t)] && ToldOnly(events, t, [])
    {
      var info := Info(0, 0, [sender]);
      ghost var story := Story([sender], [], 0);
      OneTable(n, tables, stories, t, info, story);
      tables := tables[t := info];
      stories := stories[t := story];
      NotDone(n, tables, t);
      events := [TellServers(t)];
      assert events[1..] == [];
    }

    /** HandleCreateTable: the asker is answered at once if all servers have replied, and waits
        otherwise. The first asker also makes the servers create the table. */
    method HandleCreateTable(sender: int, t: int) returns (events: seq<Event>)
      requires Valid() && (if t in tables then |stories[t].asked| < n.clients else |tables| < n.tables)
      modifies this
      ensures Valid() && t in stories && ToldOnly(events, t, if stories[t].replied == n.servers then [sender] else [])
      ensures t !in old(tables) ==>
        && stories == old(stories)[t := Story([sender], [], 0)]
        && events == [TellServers(t)] && announced == old(announced)
      ensures t in old(tables) ==>
        var s := old(stories)[t];
        if s.replied == n.servers
        then && stories == old(stories)[t := Story(s.asked + [sender], s.answered + [sender], n.servers)]
             && events == [Reply(sender, t)] + Announcement(n, tables) && announced == old(announced) + |Announcement(n, tables)|
        else && stories == old(stories)[t := Story(s.asked + [sender], s.answered, s.replied)]
             && events == [] && announced == old(announced)
    {
      if t !in tables {
        events := FirstRequest(sender, t);
      } else {
        assert TableOk(n, tables, stories, t);
        if tables[t].serversReplied == n.servers {
          events := AnswerNow(sender, t);
        } else {
          Enqueue(sender, t);
          events := [];
        }
      }
    }

    /** A reply that is not the last one is only counted. */
    method CountReply(t: int)
      requires Valid() && t in tables && stories[t].replied + 1 < n.servers
      modifies this`tables, this`stories
      ensures Valid() && stories == old(stories)[t := old(stories)[t].(replied := old(stories)[t].replied + 1)]
    {
      NotAnnounced(t);
      var info := tables[t];
      SetTable(t, info.(serversReplied := info.serversReplied + 1), stories[t].(replied := stories[t].replied + 1));
      NotDone(n, tables, t);
    }

    /** The last reply: whoever waits is answered, in order; and if that was the last table, the end
        is announced. */
    method ReleaseAll(t: int) returns (events: seq<Event>)
      requires Valid() && t in tables && stories[t].replied + 1 == n.servers
      modifies this
      ensures Valid() && announced == old(announced) + |Announcement(n, tables)|
      ensures var s := old(stories)[t]; stories == old(stories)[t := Story(s.asked, s.asked, n.servers)]
      ensures events == Replies(old(tables)[t].waiting, t) + Announcement(n, tables)
      ensures ToldOnly(events, t, old(stories)[t].asked)
    {
      NotAnnounced(t);
      var info := tables[t];
      events := ReplyToWaiting(info.waiting, t);
      SetTable(t, Info(info.clientsReplied + |info.waiting|, n.servers, []), Story(stories[t].asked, stories[t].asked, n.servers));
      var more := Announce();
      ToldReplies(info.waiting, t, more);
      events := events + more;
    }

    /** HandleCreateTableReply: one more server has replied; the last one's reply releases everyone
        who waits, in order. */
    method HandleCreateTableReply(t: int) returns (events: seq<Event>)
      requires Valid() && t in tables && stories[t].replied < n.servers
      modifies this
      ensures Valid() && t in stories && stories[t].replied == old(stories)[t].replied + 1
      ensures var s := old(stories)[t];
        if s.replied + 1 < n.servers
        then && stories == old(stories)[t := Story(s.asked, s.answered, s.replied + 1)]
             && events == [] && announced == old(announced)
        else && stories == old(stories)[t := Story(s.asked, s.asked, n.servers)]
             && events == Replies(old(tables)[t].waiting, t) + Announcement(n, tables)
             && announced == old(announced) + |Announcement(n, tables)|
      ensures ToldOnly(events, t, if stories[t].replied == n.servers then stories[t].asked else [])
    {
      assert TableOk(n, tables, stories, t);
      if tables[t].serversReplied + 1 < n.servers {
        CountReply(t);
        events := [];
      } else {
        events := ReleaseAll(t);
      }
    }
  }

  /** The loop that empties the queue of a table. */
  method ReplyToWaiting(waiting: seq<int>, t: int) returns (events: seq<Event>)
    ensures events == Replies(waiting, t)
  {
    events := [];
    while |events| < |waiting|
      invariant |events| <= |waiting| && events == Replies(waiting[..|events|], t)
    {
      events := events + [Reply(waiting[|events|], t)];
    }
    assert waiting[..|events|] == waiting;
  }
}
