/** Batches are as large as they can be: the batching of `reader_loop`, crates/rc-agent/src/session.rs. */
module OutputBatches {
  import opened Bytes
  import F = Frames
  import opened OutputSource

  /** The tokens of one batch: together within the limit, or a single one. */
  predicate Group(g: seq<seq<Byte>>) { g != [] && (|Flatten(g)| <= F.MAX_PAYLOAD || |g| == 1) }

  /** The batch is full: the first token of the next one does not go into it. */
  predicate Tight(g: seq<seq<Byte>>, next: seq<seq<Byte>>) { next != [] && |Flatten(g)| + |next[0]| > F.MAX_PAYLOAD }

  /** The tokens, cut into groups, each as long as it can be. */
  ghost predicate Greedy(groups: seq<seq<seq<Byte>>>, tokens: seq<seq<Byte>>) {
    && Flatten(groups) == tokens && (forall g :: g in groups ==> Group(g))
    && forall i :: 0 <= i < |groups| - 1 ==> Tight(groups[i], groups[i + 1])
  }

  /** The batches so far are the bytes of these groups, the last of them still open. */
  ghost predicate Grouped(b: Batches, groups: seq<seq<seq<Byte>>>, tokens: seq<seq<Byte>>) {
    && Greedy(groups, tokens)
    && if groups == [] then b == Batches([], [])
       else |groups| == |b.closed| + 1 && Flatten(groups[|b.closed|]) == b.filling && b.filling != []
            && forall i :: 0 <= i < |b.closed| ==> Flatten(groups[i]) == b.closed[i]
  }

  lemma FlattenOne(t: seq<Byte>)
    ensures Flatten([t]) == t
  {
    assert [t][..0] == [];
    assert [] + t == t;
  }

  lemma FlattenLast<T>(ss: seq<seq<T>>, t: seq<T>)
    ensures Flatten(ss + [t]) == Flatten(ss) + t
  {
    assert (ss + [t])[..|ss|] == ss;
  }

  /** A new group for `t`. */
  lemma NewGroup(groups: seq<seq<seq<Byte>>>, tokens: seq<seq<Byte>>, t: seq<Byte>)
    requires Greedy(groups, tokens) && (groups != [] ==> Tight(groups[|groups| - 1], [t]))
    ensures Greedy(groups + [[t]], tokens + [t])
  {
    FlattenOne(t);
    FlattenLast(groups, [t]);
  }

  /** The last group takes `t`. */
  lemma LargerGroup(groups: seq<seq<seq<Byte>>>, tokens: seq<seq<Byte>>, t: seq<Byte>) returns (more: seq<seq<seq<Byte>>>)
    requires Greedy(groups, tokens) && groups != [] && |Flatten(groups[|groups| - 1])| + |t| <= F.MAX_PAYLOAD
    ensures more == groups[..|groups| - 1] + [groups[|groups| - 1] + [t]] && Greedy(more, tokens + [t])
  {
    var front, last := groups[..|groups| - 1], groups[|groups| - 1];
    more := front + [last + [t]];
    assert groups == front + [last];
    FlattenLast(front, last);
    FlattenLast(front, last + [t]);
    FlattenLast(last, t);
    Associates(Flatten(front), last, [t]);
    assert last in groups;
    forall i | 0 <= i < |more| - 1 ensures Tight(more[i], more[i + 1]) {
      assert Tight(groups[i], groups[i + 1]);
    }
    forall g | g in more ensures Group(g) {
      assert g in front ==> g in groups;
    }
  }

  lemma PutGrouped(b: Batches, groups: seq<seq<seq<Byte>>>, tokens: seq<seq<Byte>>, t: seq<Byte>)
    returns (more: seq<seq<seq<Byte>>>)
    requires Grouped(b, groups, tokens) && t != []
    ensures Grouped(Put(b, t), more, tokens + [t])
  {
    if groups == [] {
      more := [[t]];
      NewGroup([], tokens, t);
      assert [] + [[t]] == [[t]] && [] + t == t;
      FlattenOne(t);
    } else if |b.filling| + |t| > F.MAX_PAYLOAD {
      more := groups + [[t]];
      NewGroup(groups, tokens, t);
      FlattenOne(t);
    } else {
      more := LargerGroup(groups, tokens, t);
      FlattenLast(groups[|groups| - 1], t);
    }
  }

  lemma {:induction false} BatchesGrouped(tokens: seq<seq<Byte>>) returns (groups: seq<seq<seq<Byte>>>)
    requires [] !in tokens
    ensures Grouped(Fold(Put, Batches([], []), tokens), groups, tokens)
  {
    if tokens == [] {
      groups := [];
    } else {
      var ts, t := tokens[..|tokens| - 1], tokens[|tokens| - 1];
      assert ts + [t] == tokens && t in tokens;
      var before := BatchesGrouped(ts);
      groups := PutGrouped(Fold(Put, Batches([], []), ts), before, ts, t);
      FoldOne(Put, Batches([], []), ts, t);
    }
  }

  /** The payloads of a read are its tokens in groups, each group as long as it can be: the next token would have taken
      it over 32768 bytes. */
  lemma BatchesGreedy(tokens: seq<seq<Byte>>) returns (groups: seq<seq<seq<Byte>>>)
    requires [] !in tokens
    ensures Greedy(groups, tokens) && Payloads(tokens) == seq(|groups|, i requires 0 <= i < |groups| => Flatten(groups[i]))
  {
    groups := BatchesGrouped(tokens);
  }
}
