/** `_bounds`: how many objects a channel may touch and how many bytes they may have together, and what
    the reads of `begin` and `finish` touch. */
module ChannelBudget {
  import opened ChannelModel
  import opened ChannelInvariant
  import opened ChannelTheorems
  import Sizes

  datatype Budget = Budget(objects: nat, bytes: nat, size: Content -> nat)

  ghost function Weight(b: Budget, refs: Objects): nat {
    if refs == map[] then 0
    else
      var name :| name in refs;
      b.size(refs[name].raw) + Weight(b, refs - {name})
  }

  ghost predicate Within(b: Budget, refs: Objects) {
    |refs| <= b.objects && Weight(b, refs) <= b.bytes
  }

  lemma {:induction false} WeightWithout(b: Budget, refs: Objects, name: Name)
    requires name in refs
    ensures Weight(b, refs) == b.size(refs[name].raw) + Weight(b, refs - {name})
    decreases |refs|
  {
    var other :| other in refs && Weight(b, refs) == b.size(refs[other].raw) + Weight(b, refs - {other});
    if other != name {
      WeightWithout(b, refs - {other}, name);
      WeightWithout(b, refs - {name}, other);
      assert refs - {other} - {name} == refs - {name} - {other};
    }
  }

  lemma WeightWith(b: Budget, refs: Objects, name: Name, ref: Ref)
    requires name !in refs
    ensures Weight(b, refs[name := ref]) == Weight(b, refs) + b.size(ref.raw)
    ensures |refs[name := ref]| == |refs| + 1
  {
    WeightWithout(b, refs[name := ref], name);
    assert refs[name := ref] - {name} == refs;
    Sizes.MapWith(refs, name, ref);
  }

  lemma {:induction false} WeightLess(b: Budget, small: Objects, large: Objects)
    requires Grows(small, large)
    ensures Weight(b, small) <= Weight(b, large)
    decreases |small|
  {
    if small != map[] {
      var name :| name in small;
      WeightWithout(b, small, name);
      WeightWithout(b, large, name);
      WeightLess(b, small - {name}, large - {name});
    }
  }

  /** Touching less is never refused where touching more is not. */
  lemma WithinLess(b: Budget, small: Objects, large: Objects)
    requires Grows(small, large)
    ensures Within(b, large) ==> Within(b, small)
  {
    WeightLess(b, small, large);
    Sizes.SubsetSize(small.Keys, large.Keys);
    assert |small| == |small.Keys| && |large| == |large.Keys|;
  }

  lemma Both(a: Objects, c: Objects, o: Objects)
    requires Grows(a, o) && Grows(c, o)
    ensures Grows(a, a + c) && Grows(c, a + c) && Grows(a + c, o)
  {
  }

  // --- What is touched ---

  function RefMap(refs: seq<Ref>): Objects {
    if refs == [] then map[] else RefMap(refs[..|refs| - 1])[refs[|refs| - 1].name := refs[|refs| - 1]]
  }

  function Found(o: Objects, name: Name): Objects {
    if name in o then map[name := o[name]] else map[]
  }

  /** The objects `_phase` reads when it does not refuse. */
  function PhaseTouch(o: Objects, key: Key): Objects {
    Found(o, PhaseIntent(key)) + Found(o, PhaseTerminal(key))
    + if PhaseIntent(key) in o && PhaseTerminal(key) in o && o[PhaseTerminal(key)].raw.PhaseDoc?
      then RefMap(o[PhaseTerminal(key)].raw.files) else map[]
  }

  function AllTouch(o: Objects, keys: seq<Key>, n: nat): Objects
    requires n <= |keys|
  {
    if n == 0 then map[] else AllTouch(o, keys, n - 1) + PhaseTouch(o, keys[n - 1])
  }

  function RemoteTouch(o: Objects, keys: seq<Key>, binding: Ref): Objects {
    map[BindingName := binding] + AllTouch(o, keys, |keys|)
  }

  function LinkTouch(ref: Ref): Objects {
    map[ref.name := ref] + if ref.raw.RunDoc? then map[ref.raw.ack.name := ref.raw.ack] else map[]
  }

  function ChainTouch(chain: seq<Ref>): Objects {
    if chain == [] then map[] else LinkTouch(chain[0]) + ChainTouch(chain[1..])
  }

  /** The objects the reads of `begin` touch when none of them is refused. */
  function ReviewTouch(o: Objects, keys: seq<Key>, d: Dispatch): Objects {
    RemoteTouch(o, keys, d.binding) + map[d.ack.name := d.ack]
    + match d.parent
      case None => map[]
      case Some(_) =>
        var chain := ParentChain(o, d.binding, d.parent, d.before, {}, |keys|);
        if chain.Some? then ChainTouch(chain.value) else map[]
  }
}
