/** The per-class, per-session store of last retained values (zeared/retention.py). */
module Retention {
  import opened Wrappers
  import opened KeyExpr
  import PrefixIndex

  type Bytes = seq<bv8>

  datatype Encoding = Msgpack | Json

  datatype Entry = Entry(raw: Bytes, encoding: Encoding, attachment: Option<Bytes>,
                         inserted: real, timestamp: Option<string>)

  /** A reply to a query, or a republished put. */
  datatype Sample = Sample(topic: string, raw: Bytes, encoding: Encoding,
                           attachment: Option<Bytes>, replay: bool, timestamp: Option<string>)

  function ToSample(topic: string, e: Entry, replay: bool): Sample {
    Sample(topic, e.raw, e.encoding, e.attachment, replay, e.timestamp)
  }

  predicate Expired(e: Entry, ttl: Option<real>, now: real) {
    ttl.Some? && now - e.inserted > ttl.value
  }

  /** Within the TTL, if there is one. */
  predicate WithinTtl(inserted: real, ttl: Option<real>, now: real) {
    ttl.None? || now - inserted <= ttl.value
  }

  /** The sample carries the entry as it was stored, its own timestamp included. */
  predicate Carries(s: Sample, topic: string, e: Entry, replay: bool) {
    && s.topic == topic && s.raw == e.raw && s.encoding == e.encoding && s.attachment == e.attachment
    && s.timestamp == e.timestamp && s.replay == replay
  }

  /** `samples` is one sample for each topic of `topics`, carrying its entry, and nothing else. */
  ghost predicate OnePer(samples: seq<Sample>, topics: set<string>, entries: map<string, Entry>, replay: bool) {
    && topics <= entries.Keys && |samples| == |topics|
    && (forall c :: c in topics ==> exists i :: 0 <= i < |samples| && Carries(samples[i], c, entries[c], replay))
    && (forall i :: 0 <= i < |samples| ==>
          samples[i].topic in topics && Carries(samples[i], samples[i].topic, entries[samples[i].topic], replay))
  }

  /** `samples` holds exactly one sample for each entry of `entries` that `keep` names. */
  ghost predicate OneEach(samples: seq<Sample>, entries: map<string, Entry>, keep: set<string>, replay: bool) {
    && keep <= entries.Keys
    && (forall a, b :: 0 <= a < b < |samples| ==> samples[a].topic != samples[b].topic)
    && (forall s :: s in samples <==> s.topic in keep && s == ToSample(s.topic, entries[s.topic], replay))
    && (forall c :: c in keep ==> ToSample(c, entries[c], replay) in samples)
  }

  lemma OneEachSnoc(samples: seq<Sample>, entries: map<string, Entry>, keep: set<string>, replay: bool, c: string)
    requires OneEach(samples, entries, keep, replay)
    requires c in entries && c !in keep
    ensures OneEach(samples + [ToSample(c, entries[c], replay)], entries, keep + {c}, replay)
  {
    var last := ToSample(c, entries[c], replay);
    forall s ensures s in samples + [last] <==>
        s.topic in keep + {c} && s == ToSample(s.topic, entries[s.topic], replay)
    {
    }
    forall a, b | 0 <= a < b < |samples + [last]|
      ensures (samples + [last])[a].topic != (samples + [last])[b].topic
    {
      assert samples[a] in samples;
    }
  }

  lemma OneEachIsOnePer(samples: seq<Sample>, entries: map<string, Entry>, keep: set<string>, replay: bool)
    requires OneEach(samples, entries, keep, replay)
    ensures OnePer(samples, keep, entries, replay)
  {
    forall c | c in keep ensures exists i :: 0 <= i < |samples| && Carries(samples[i], c, entries[c], replay) {
      assert ToSample(c, entries[c], replay) in samples;
      var i :| 0 <= i < |samples| && samples[i] == ToSample(c, entries[c], replay);
      assert Carries(samples[i], c, entries[c], replay);
    }
    TopicsCount(samples, keep);
  }

  lemma {:induction false} TopicsCount(samples: seq<Sample>, keep: set<string>)
    requires forall a, b :: 0 <= a < b < |samples| ==> samples[a].topic != samples[b].topic
    requires forall c :: c in keep <==> exists i :: 0 <= i < |samples| && samples[i].topic == c
    ensures |samples| == |keep|
  {
    if samples == [] {
      assert keep == {};
    } else {
      var m := |samples| - 1;
      var last := samples[m].topic;
      forall c ensures c in keep - {last} <==> exists i :: 0 <= i < m && samples[..m][i].topic == c {
        if c in keep - {last} {
          var i :| 0 <= i < |samples| && samples[i].topic == c;
          assert samples[..m][i].topic == c;
        }
        if i :| 0 <= i < m && samples[..m][i].topic == c {
          assert samples[i].topic == c;
        }
      }
      TopicsCount(samples[..m], keep - {last});
    }
  }

  /** The entries a query reaches, and those of them past the TTL. */
  ghost function ReachedIn(was: map<string, Entry>, query: string): set<string> {
    set c | c in was && Intersects(query, c)
  }

  ghost function LapsedIn(was: map<string, Entry>, query: string, ttl: Option<real>, now: real): set<string> {
    set c | c in was && Intersects(query, c) && Expired(was[c], ttl, now)
  }

  lemma StaysExactly(was: map<string, Entry>, query: string, ttl: Option<real>, now: real, c: string)
    ensures c in was - LapsedIn(was, query, ttl, now) <==>
      c in was && (Intersects(query, c) ==> WithinTtl(was[c].inserted, ttl, now))
    ensures c in ReachedIn(was, query) - LapsedIn(was, query, ttl, now) <==>
      c in was - LapsedIn(was, query, ttl, now) && Intersects(query, c)
  {
  }

  lemma RepliedAreLeft(was: map<string, Entry>, query: string, ttl: Option<real>, now: real)
    ensures ReachedIn(was, query) - LapsedIn(was, query, ttl, now)
         == set c | c in was - LapsedIn(was, query, ttl, now) && Intersects(query, c)
  {
    forall c {
      StaysExactly(was, query, ttl, now, c);
    }
  }

  /** What is replied and what stays, in the entries' own terms. */
  lemma AnswerInFull(replies: seq<Sample>, was: map<string, Entry>, query: string, ttl: Option<real>, now: real)
    requires OneEach(replies, was, ReachedIn(was, query) - LapsedIn(was, query, ttl, now), false)
    ensures var left := was - LapsedIn(was, query, ttl, now);
      && (forall c :: c in left <==> c in was && (Intersects(query, c) ==> WithinTtl(was[c].inserted, ttl, now)))
      && OnePer(replies, (set c | c in left && Intersects(query, c)), was, false)
  {
    OneEachIsOnePer(replies, was, ReachedIn(was, query) - LapsedIn(was, query, ttl, now), false);
    RepliedAreLeft(was, query, ttl, now);
    var left := was - LapsedIn(was, query, ttl, now);
    forall c ensures c in left <==> c in was && (Intersects(query, c) ==> WithinTtl(was[c].inserted, ttl, now)) {
      StaysExactly(was, query, ttl, now, c);
    }
  }

  class Cache {
    var entries: map<string, Entry>
    var index: PrefixIndex.Index

    ghost function Repr(): set<object>
      reads this, index
    {
      {this} + index.Repr()
    }

    /** The index's topics are the cache's keys. */
    ghost predicate Valid()
      reads this, index, index.Repr()
    {
      && this !in index.Repr()
      && index.Valid()
      && index.topics == entries.Keys
    }

    constructor ()
      ensures Valid() && fresh(Repr()) && entries == map[]
    {
      entries := map[];
      index := new PrefixIndex.Index();
    }

    /** The recording half of `store`, once the queryables are declared. */
    method Store(topic: string, raw: Bytes, encoding: Encoding,
                 attachment: Option<Bytes>, timestamp: Option<string>, now: real)
      requires Valid()
      modifies Repr()
      ensures Valid() && fresh(Repr() - old(Repr()))
      ensures entries == old(entries)[topic := Entry(raw, encoding, attachment, now, timestamp)]
    {
      var newEntry := topic !in entries;
      entries := entries[topic := Entry(raw, encoding, attachment, now, timestamp)];
      if newEntry {
        index.Add(topic);
      }
    }

    method Delete(topic: string)
      requires Valid()
      modifies Repr()
      ensures Valid() && Repr() <= old(Repr())
      ensures entries == old(entries) - {topic}
    {
      if topic in entries {
        entries := entries - {topic};
        index.Remove(topic);
      }
    }

    method Drop()
      modifies this
      ensures Valid() && fresh(Repr() - {this}) && entries == map[]
    {
      entries := map[];
      index := new PrefixIndex.Index();
    }

    /** The live entries, re-put with their own timestamps; a put on a topic in `failing` raises. */
    method Republish(ttl: Option<real>, now: real, failing: set<string>) returns (puts: seq<Sample>, sent: nat)
      requires Valid()
      ensures OneEach(puts, entries, (set c | c in entries && !Expired(entries[c], ttl, now)) - failing, true)
      ensures OnePer(puts, (set c | c in entries && WithinTtl(entries[c].inserted, ttl, now)) - failing, entries, true)
      ensures sent == |puts|
    {
      var todo := set c | c in entries && !Expired(entries[c], ttl, now);
      ghost var live := todo;
      puts, sent := [], 0;
      while todo != {}
        invariant todo <= live
        invariant OneEach(puts, entries, live - todo - failing, true)
        invariant sent == |puts|
      {
        var c :| c in todo;
        if c !in failing {
          OneEachSnoc(puts, entries, live - todo - failing, true, c);
          puts := puts + [ToSample(c, entries[c], true)];
          sent := sent + 1;
          assert live - (todo - {c}) - failing == live - todo - failing + {c};
        } else {
          assert live - (todo - {c}) - failing == live - todo - failing;
        }
        todo := todo - {c};
      }
      assert live - {} - failing == live - failing;
      assert live == set c | c in entries && WithinTtl(entries[c].inserted, ttl, now);
      OneEachIsOnePer(puts, entries, live - failing, true);
    }

    /** The cached topics a query reaches, and those of them past the TTL. */
    ghost function Reached(query: string): set<string>
      reads this
    {
      ReachedIn(entries, query)
    }

    ghost function Lapsed(query: string, ttl: Option<real>, now: real): set<string>
      reads this
    {
      LapsedIn(entries, query, ttl, now)
    }

    method HandleQuery(query: string, ttl: Option<real>, now: real) returns (replies: seq<Sample>)
      requires Valid()
      modifies Repr()
      ensures Valid() && Repr() <= old(Repr())
      ensures OneEach(replies, old(entries), old(Reached(query)) - old(Lapsed(query, ttl, now)), false)
      ensures entries == old(entries) - old(Lapsed(query, ttl, now))
      ensures forall c :: c in entries <==>
                c in old(entries) && (Intersects(query, c) ==> WithinTtl(old(entries)[c].inserted, ttl, now))
      ensures OnePer(replies, (set c | c in entries && Intersects(query, c)), old(entries), false)
    {
      var matches := index.Matching(query);
      var expired: seq<string>;
      replies, expired := Sift(matches, ttl, now);
      ghost var seen := set c | c in matches;
      assert seen == Reached(query);
      AnswerInFull(replies, entries, query, ttl, now);
      Prune(expired, Lapsed(query, ttl, now));
    }

    /** The first loop of `_handle_query`: what to reply, what to prune. */
    method Sift(matches: seq<string>, ttl: Option<real>, now: real)
      returns (replies: seq<Sample>, expired: seq<string>)
      requires forall a, b :: 0 <= a < b < |matches| ==> matches[a] != matches[b]
      requires forall c :: c in matches ==> c in entries
      ensures OneEach(replies, entries, set c | c in matches && !Expired(entries[c], ttl, now), false)
      ensures forall c :: c in expired <==> c in matches && Expired(entries[c], ttl, now)
    {
      replies, expired := [], [];
      for i := 0 to |matches|
        invariant OneEach(replies, entries, set c | c in matches[..i] && !Expired(entries[c], ttl, now), false)
        invariant forall c :: c in expired <==> c in matches[..i] && Expired(entries[c], ttl, now)
      {
        var c := matches[i];
        assert matches[..i+1] == matches[..i] + [c];
        assert c !in matches[..i];
        ghost var was := set c | c in matches[..i] && !Expired(entries[c], ttl, now);
        ghost var next := set c | c in matches[..i+1] && !Expired(entries[c], ttl, now);
        if Expired(entries[c], ttl, now) {
          expired := expired + [c];
          assert next == was;
        } else {
          OneEachSnoc(replies, entries, was, false, c);
          replies := replies + [ToSample(c, entries[c], false)];
          assert next == was + {c};
        }
      }
      assert matches[..|matches|] == matches;
    }

    /** The second loop: drop each expired entry from the cache and the index. */
    method Prune(expired: seq<string>, ghost gone: set<string>)
      requires Valid() && gone == set c | c in expired
      modifies Repr()
      ensures Valid() && Repr() <= old(Repr())
      ensures entries == old(entries) - gone
    {
      ghost var done: set<string> := {};
      for i := 0 to |expired|
        invariant Valid() && Repr() <= old(Repr())
        invariant done == Firsts(expired, i)
        invariant entries == old(entries) - done
      {
        FirstsNext(expired, i);
        MinusMinus(old(entries), done, expired[i]);
        Delete(expired[i]);
        done := done + {expired[i]};
      }
      assert Firsts(expired, |expired|) == gone;
    }
  }

  lemma MinusMinus(m: map<string, Entry>, gone: set<string>, c: string)
    ensures m - gone - {c} == m - (gone + {c})
  {
  }

  ghost function Firsts(s: seq<string>, i: nat): set<string>
    requires i <= |s|
  {
    set j | 0 <= j < i :: s[j]
  }

  lemma FirstsNext(s: seq<string>, i: nat)
    requires i < |s|
    ensures Firsts(s, i + 1) == Firsts(s, i) + {s[i]}
  {
  }
}
