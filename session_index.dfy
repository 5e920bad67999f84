// The bookkeeping every resource hub and every emitter repeats: a Go
// `map[string]map[string]bool` used as a map from a key to a set, the two
// directions a hub keeps of one relation (room -> sessions, session -> rooms),
// and the calls a hub makes on its platform emitter.

module SessionIndex {
  import opened Common
  import opened ChatMessage

  /** `map[string]map[string]bool` whose inner values are always true: a map to sets.
      A key may be present with an empty set (a non-nil, empty inner map). */
  type Index = map<string, set<string>>

  /** Reading a nil inner map gives nothing. */
  function Lookup(m: Index, k: string): set<string>
  {
    if k in m then m[k] else {}
  }

  /** Insert `v` under `k`, creating the inner map if it was nil. */
  function Link(m: Index, k: string, v: string): Index
  {
    m[k := Lookup(m, k) + {v}]
  }

  /** Delete `v` from the inner map under `k` if there is one; the key stays even when its set empties. */
  function Unlink(m: Index, k: string, v: string): Index
  {
    if k in m then m[k := m[k] - {v}] else m
  }

  /** Delete `v` under `k` and drop the key once its set is empty (the emitters' Deregister). */
  function UnlinkDrop(m: Index, k: string, v: string): Index
  {
    if k !in m then m
    else if m[k] - {v} == {} then m - {k}
    else m[k := m[k] - {v}]
  }

  /** The entries of `m` whose sets are not empty. */
  function Live(m: Index): Index
  {
    map k | k in m && m[k] != {} :: m[k]
  }

  /** The room -> sessions side after session `v` left the rooms `removed` and joined
      `added`: joined rooms get an entry if they had none, left rooms keep theirs. */
  function Resubscribe(m: Index, v: string, removed: set<string>, added: set<string>): Index
  {
    map k | k in m.Keys + added ::
      if k in added then Lookup(m, k) + {v}
      else if k in removed then m[k] - {v}
      else m[k]
  }

  /** The session -> rooms side after the same change: the session's set becomes
      `newSet`, and its key exists when it existed before or something was created. */
  function Reassign(m: Index, v: string, newSet: set<string>, created: bool): Index
  {
    if v in m || created then m[v := newSet] else m
  }

  /** No key is kept with an empty set (true of every emitter map). */
  ghost predicate NoEmpty(m: Index)
  {
    forall k :: k in m ==> m[k] != {}
  }

  /** The two directions a hub keeps describe one relation. */
  ghost predicate Consistent(r2s: Index, s2r: Index)
  {
    forall r, s :: s in Lookup(r2s, r) <==> r in Lookup(s2r, s)
  }

  /** Two indexes with the same keys and the same sets are equal. */
  lemma IndexExt(a: Index, b: Index)
    requires a.Keys == b.Keys
    requires forall k :: Lookup(a, k) == Lookup(b, k)
    ensures a == b
  {
    forall k | k in a ensures a[k] == b[k] {
      assert Lookup(a, k) == Lookup(b, k);
    }
  }

  lemma LinkFacts(m: Index, k: string, v: string)
    ensures Link(m, k, v).Keys == m.Keys + {k}
    ensures forall k' :: Lookup(Link(m, k, v), k') == if k' == k then Lookup(m, k) + {v} else Lookup(m, k')
  {
  }

  lemma UnlinkFacts(m: Index, k: string, v: string)
    ensures Unlink(m, k, v).Keys == m.Keys
    ensures forall k' :: Lookup(Unlink(m, k, v), k') == if k' == k then Lookup(m, k) - {v} else Lookup(m, k')
  {
  }

  /** The emitters' Deregister removes one subscriber and keeps only non-empty entries. */
  lemma UnlinkDropFacts(m: Index, k: string, v: string)
    ensures forall k' :: Lookup(UnlinkDrop(m, k, v), k') == if k' == k then Lookup(m, k) - {v} else Lookup(m, k')
    ensures k in UnlinkDrop(m, k, v) <==> Lookup(m, k) - {v} != {}
    ensures forall k' :: k' != k ==> (k' in UnlinkDrop(m, k, v) <==> k' in m)
    ensures NoEmpty(m) ==> NoEmpty(UnlinkDrop(m, k, v))
  {
  }

  lemma LiveFacts(m: Index)
    ensures NoEmpty(Live(m))
    ensures forall k :: Lookup(Live(m), k) == Lookup(m, k)
    ensures forall k :: k in Live(m) <==> Lookup(m, k) != {}
  {
  }

  lemma ResubscribeFacts(m: Index, v: string, removed: set<string>, added: set<string>)
    ensures Resubscribe(m, v, removed, added).Keys == m.Keys + added
    ensures forall k :: Lookup(Resubscribe(m, v, removed, added), k) ==
                          if k in added then Lookup(m, k) + {v}
                          else if k in removed then Lookup(m, k) - {v}
                          else Lookup(m, k)
  {
  }

  lemma ReassignFacts(m: Index, v: string, newSet: set<string>, created: bool)
    ensures forall k :: k != v ==> Lookup(Reassign(m, v, newSet, created), k) == Lookup(m, k)
    ensures forall k :: k != v ==> (k in Reassign(m, v, newSet, created) <==> k in m)
    ensures Lookup(Reassign(m, v, newSet, created), v) == (if v in m || created then newSet else {})
    ensures v in Reassign(m, v, newSet, created) <==> v in m || created
  {
  }

  lemma LinkKeepsConsistent(r2s: Index, s2r: Index, r: string, s: string)
    requires Consistent(r2s, s2r)
    ensures Consistent(Link(r2s, r, s), Link(s2r, s, r))
  {
    var a, b := Link(r2s, r, s), Link(s2r, s, r);
    LinkFacts(r2s, r, s);
    LinkFacts(s2r, s, r);
    forall r', s' ensures s' in Lookup(a, r') <==> r' in Lookup(b, s') {
      assert s' in Lookup(r2s, r') <==> r' in Lookup(s2r, s');
    }
  }

  lemma UnlinkKeepsConsistent(r2s: Index, s2r: Index, r: string, s: string)
    requires Consistent(r2s, s2r)
    ensures Consistent(Unlink(r2s, r, s), Unlink(s2r, s, r))
  {
    var a, b := Unlink(r2s, r, s), Unlink(s2r, s, r);
    UnlinkFacts(r2s, r, s);
    UnlinkFacts(s2r, s, r);
    forall r', s' ensures s' in Lookup(a, r') <==> r' in Lookup(b, s') {
      assert s' in Lookup(r2s, r') <==> r' in Lookup(s2r, s');
    }
  }

  /** One more room left, as the loops of RemoveSession and RegisterSessionResources do it. */
  lemma LeaveStep(m: Index, v: string, removed: set<string>, k: string)
    ensures Unlink(Resubscribe(m, v, removed, {}), k, v) == Resubscribe(m, v, removed + {k}, {})
  {
    ResubscribeFacts(m, v, removed, {});
    ResubscribeFacts(m, v, removed + {k}, {});
    UnlinkFacts(Resubscribe(m, v, removed, {}), k, v);
    IndexExt(Unlink(Resubscribe(m, v, removed, {}), k, v), Resubscribe(m, v, removed + {k}, {}));
  }

  /** One more room joined. */
  lemma JoinStep(m: Index, v: string, added: set<string>, k: string)
    ensures Link(Resubscribe(m, v, {}, added), k, v) == Resubscribe(m, v, {}, added + {k})
  {
    var before := Resubscribe(m, v, {}, added);
    var a, b := Link(before, k, v), Resubscribe(m, v, {}, added + {k});
    assert before.Keys == m.Keys + added;
    assert a.Keys == b.Keys;
    forall k' | k' in a ensures a[k'] == b[k'] {
      if k' == k {
        assert a[k'] == Lookup(before, k) + {v};
        assert Lookup(before, k) + {v} == Lookup(m, k) + {v};
      } else {
        assert a[k'] == before[k'];
      }
    }
  }

  /** The session side of one more room left. */
  lemma ShrinkStep(m: Index, v: string, removed: set<string>, k: string)
    ensures Unlink(Reassign(m, v, Lookup(m, v) - removed, false), v, k)
            == Reassign(m, v, Lookup(m, v) - (removed + {k}), false)
  {
    var before := Reassign(m, v, Lookup(m, v) - removed, false);
    ReassignFacts(m, v, Lookup(m, v) - removed, false);
    ReassignFacts(m, v, Lookup(m, v) - (removed + {k}), false);
    UnlinkFacts(before, v, k);
    IndexExt(Unlink(before, v, k), Reassign(m, v, Lookup(m, v) - (removed + {k}), false));
  }

  /** The session side of one more room joined. */
  lemma GrowStep(m: Index, v: string, added: set<string>, created: bool, k: string)
    requires added == {} || created
    ensures Link(Reassign(m, v, Lookup(m, v) + added, created), v, k)
            == Reassign(m, v, Lookup(m, v) + (added + {k}), true)
  {
    var before := Reassign(m, v, Lookup(m, v) + added, created);
    ReassignFacts(m, v, Lookup(m, v) + added, created);
    ReassignFacts(m, v, Lookup(m, v) + (added + {k}), true);
    LinkFacts(before, v, k);
    IndexExt(Link(before, v, k), Reassign(m, v, Lookup(m, v) + (added + {k}), true));
  }

  /** Leaving nothing and joining nothing changes nothing. */
  lemma ResubscribeNothing(m: Index, v: string)
    ensures Resubscribe(m, v, {}, {}) == m
  {
    ResubscribeFacts(m, v, {}, {});
    IndexExt(Resubscribe(m, v, {}, {}), m);
  }

  /** Reassigning a session its own set creates nothing and changes nothing. */
  lemma ReassignSame(m: Index, v: string)
    ensures Reassign(m, v, Lookup(m, v), false) == m
  {
    if v in m {
      IndexExt(m[v := m[v]], m);
    }
  }

  /** Leaving some rooms and then joining others is one Resubscribe. */
  lemma ResubscribeCompose(m: Index, v: string, removed: set<string>, added: set<string>)
    ensures Resubscribe(Resubscribe(m, v, removed, {}), v, {}, added) == Resubscribe(m, v, removed, added)
  {
    ResubscribeFacts(m, v, removed, {});
    ResubscribeFacts(Resubscribe(m, v, removed, {}), v, {}, added);
    ResubscribeFacts(m, v, removed, added);
    IndexExt(Resubscribe(Resubscribe(m, v, removed, {}), v, {}, added), Resubscribe(m, v, removed, added));
  }

  /** A second Reassign overrides an earlier one that created nothing. */
  lemma ReassignCompose(m: Index, v: string, first: set<string>, second: set<string>, created: bool)
    ensures Reassign(Reassign(m, v, first, false), v, second, created) == Reassign(m, v, second, created)
  {
  }

  /** A hub whose session `s` leaves the rooms `removed` and joins the rooms `added`
      (in that order) stays consistent. */
  lemma {:induction false} MoveKeepsConsistent(r2s: Index, s2r: Index, s: string, removed: set<string>, added: set<string>)
    requires Consistent(r2s, s2r)
    ensures Consistent(Resubscribe(r2s, s, removed, added),
                       Reassign(s2r, s, (Lookup(s2r, s) - removed) + added, added != {}))
  {
    var oldSet := Lookup(s2r, s);
    var a := Resubscribe(r2s, s, removed, added);
    var b := Reassign(s2r, s, (oldSet - removed) + added, added != {});
    ResubscribeFacts(r2s, s, removed, added);
    ReassignFacts(s2r, s, (oldSet - removed) + added, added != {});
    forall r, s' ensures s' in Lookup(a, r) <==> r in Lookup(b, s') {
      assert s' in Lookup(r2s, r) <==> r in Lookup(s2r, s');
      if s' == s {
        assert s in Lookup(r2s, r) <==> r in oldSet;
        if s !in s2r && added == {} {
          assert oldSet == {};
        }
      }
    }
  }

  /** Removing a session from every room it is in and dropping its key keeps the hub consistent. */
  lemma {:induction false} DropKeepsConsistent(r2s: Index, s2r: Index, s: string)
    requires Consistent(r2s, s2r)
    ensures Consistent(Resubscribe(r2s, s, Lookup(s2r, s), {}), s2r - {s})
  {
    var a := Resubscribe(r2s, s, Lookup(s2r, s), {});
    ResubscribeFacts(r2s, s, Lookup(s2r, s), {});
    forall r, s' ensures s' in Lookup(a, r) <==> r in Lookup(s2r - {s}, s') {
      assert s' in Lookup(r2s, r) <==> r in Lookup(s2r, s');
    }
  }

  /** A call a hub makes on its platform emitter. */
  datatype EmitterCall = Register(subscriber: string, info: Info) | Deregister(subscriber: string, info: Info)

  /** One Deregister per descriptor, in order. */
  function DeregCalls(s: string, infos: seq<Info>): (calls: seq<EmitterCall>)
    ensures |calls| == |infos|
  {
    if infos == [] then [] else DeregCalls(s, infos[..|infos| - 1]) + [Deregister(s, infos[|infos| - 1])]
  }

  /** One Register per descriptor, in order. */
  function RegCalls(s: string, infos: seq<Info>): (calls: seq<EmitterCall>)
    ensures |calls| == |infos|
  {
    if infos == [] then [] else RegCalls(s, infos[..|infos| - 1]) + [Register(s, infos[|infos| - 1])]
  }

  /** One more descriptor deregistered / registered. */
  lemma CallsSnoc(s: string, infos: seq<Info>, x: Info)
    ensures DeregCalls(s, infos + [x]) == DeregCalls(s, infos) + [Deregister(s, x)]
    ensures RegCalls(s, infos + [x]) == RegCalls(s, infos) + [Register(s, x)]
  {
    assert (infos + [x])[..|infos|] == infos;
  }

  lemma {:induction false} DeregCallsAt(s: string, infos: seq<Info>)
    ensures forall i :: 0 <= i < |infos| ==> DeregCalls(s, infos)[i] == Deregister(s, infos[i])
  {
    if infos != [] {
      DeregCallsAt(s, infos[..|infos| - 1]);
    }
  }

  lemma {:induction false} RegCallsAt(s: string, infos: seq<Info>)
    ensures forall i :: 0 <= i < |infos| ==> RegCalls(s, infos)[i] == Register(s, infos[i])
  {
    if infos != [] {
      RegCallsAt(s, infos[..|infos| - 1]);
    }
  }

  // ----- what an emitter does with the hub's calls -----

  /** One call as an emitter's Register/Deregister applies it to its subscriber map:
      `key` is where the emitter files a descriptor (None: a kind it ignores). */
  function Step(m: Index, call: EmitterCall, key: Info -> Option<string>): (r: Index)
    ensures NoEmpty(m) ==> NoEmpty(r)
  {
    match call
    case Register(s, info) => if key(info).Some? then Link(m, key(info).value, s) else m
    case Deregister(s, info) => if key(info).Some? then UnlinkDrop(m, key(info).value, s) else m
  }

  /** The emitter's subscriber map after a run of calls, in order. */
  function Apply(m: Index, calls: seq<EmitterCall>, key: Info -> Option<string>): (r: Index)
    ensures NoEmpty(m) ==> NoEmpty(r)
  {
    if calls == [] then m else Step(Apply(m, calls[..|calls| - 1], key), calls[|calls| - 1], key)
  }

  /** The keys a list of descriptors is filed under. */
  function KeySet(infos: seq<Info>, key: Info -> Option<string>): set<string>
  {
    if infos == [] then {}
    else
      var x := infos[|infos| - 1];
      KeySet(infos[..|infos| - 1], key) + (if key(x).Some? then {key(x).value} else {})
  }

  /** A key is in the set exactly when some listed descriptor is filed under it. */
  lemma {:induction false} KeySetMembers(infos: seq<Info>, key: Info -> Option<string>)
    ensures forall k :: k in KeySet(infos, key) <==> exists i :: 0 <= i < |infos| && key(infos[i]) == Some(k)
  {
    if infos != [] {
      var init := infos[..|infos| - 1];
      KeySetMembers(init, key);
      forall k | k in KeySet(infos, key) ensures exists i :: 0 <= i < |infos| && key(infos[i]) == Some(k) {
        if k in KeySet(init, key) {
          var i :| 0 <= i < |init| && key(init[i]) == Some(k);
          assert infos[i] == init[i];
        } else {
          assert key(infos[|infos| - 1]) == Some(k);
        }
      }
      forall k | exists i :: 0 <= i < |infos| && key(infos[i]) == Some(k) ensures k in KeySet(infos, key) {
        var i :| 0 <= i < |infos| && key(infos[i]) == Some(k);
        if i < |init| {
          assert init[i] == infos[i];
        }
      }
    }
  }

  /** Running two call logs one after the other. */
  lemma {:induction false} ApplyAppend(m: Index, xs: seq<EmitterCall>, ys: seq<EmitterCall>, key: Info -> Option<string>)
    ensures Apply(m, xs + ys, key) == Apply(Apply(m, xs, key), ys, key)
  {
    if ys == [] {
      assert xs + ys == xs;
    } else {
      ApplyAppend(m, xs, ys[..|ys| - 1], key);
      assert (xs + ys)[..|xs + ys| - 1] == xs + ys[..|ys| - 1];
    }
  }

  /** Adding a subscriber commutes with dropping the empty entries. */
  lemma LiveLink(m: Index, k: string, v: string)
    ensures Live(Link(m, k, v)) == Link(Live(m), k, v)
  {
    LinkFacts(m, k, v);
    LinkFacts(Live(m), k, v);
    LiveFacts(m);
    LiveFacts(Link(m, k, v));
    IndexExt(Live(Link(m, k, v)), Link(Live(m), k, v));
  }

  /** Removing a subscriber and then dropping empty entries is the emitters' Deregister
      on the live entries. */
  lemma LiveUnlink(m: Index, k: string, v: string)
    ensures Live(Unlink(m, k, v)) == UnlinkDrop(Live(m), k, v)
  {
    UnlinkFacts(m, k, v);
    UnlinkDropFacts(Live(m), k, v);
    LiveFacts(m);
    LiveFacts(Unlink(m, k, v));
    IndexExt(Live(Unlink(m, k, v)), UnlinkDrop(Live(m), k, v));
  }

  /** One Deregister call on the emitter mirrors one room left on the hub. */
  lemma DeregisterAgreesStep(m: Index, s: string, rooms: set<string>, x: Info, key: Info -> Option<string>)
    ensures Step(Live(Resubscribe(m, s, rooms, {})), Deregister(s, x), key)
            == Live(Resubscribe(m, s, rooms + (if key(x).Some? then {key(x).value} else {}), {}))
  {
    var before := Resubscribe(m, s, rooms, {});
    if key(x).Some? {
      var c := key(x).value;
      LiveUnlink(before, c, s);
      LeaveStep(m, s, rooms, c);
    } else {
      assert rooms + {} == rooms;
    }
  }

  /** The hub's Deregister calls, applied by the emitter, close exactly the rooms the
      session was the last to leave. */
  lemma {:induction false} DeregisterAgrees(m: Index, s: string, infos: seq<Info>, key: Info -> Option<string>)
    ensures Apply(Live(m), DeregCalls(s, infos), key) == Live(Resubscribe(m, s, KeySet(infos, key), {}))
  {
    if infos == [] {
      ResubscribeNothing(m, s);
    } else {
      var init, x := infos[..|infos| - 1], infos[|infos| - 1];
      DeregisterAgrees(m, s, init, key);
      var calls := DeregCalls(s, infos);
      assert calls[..|calls| - 1] == DeregCalls(s, init);
      assert calls == DeregCalls(s, init) + [Deregister(s, x)];
      assert Apply(Live(m), calls, key) == Step(Apply(Live(m), DeregCalls(s, init), key), Deregister(s, x), key);
      var k := KeySet(init, key);
      assert KeySet(infos, key) == k + (if key(x).Some? then {key(x).value} else {});
      DeregisterAgreesStep(m, s, k, x, key);
    }
  }

  /** One Register call on the emitter mirrors one room joined on the hub. */
  lemma RegisterAgreesStep(m: Index, s: string, rooms: set<string>, x: Info, key: Info -> Option<string>)
    ensures Step(Live(Resubscribe(m, s, {}, rooms)), Register(s, x), key)
            == Live(Resubscribe(m, s, {}, rooms + (if key(x).Some? then {key(x).value} else {})))
  {
    var before := Resubscribe(m, s, {}, rooms);
    if key(x).Some? {
      var c := key(x).value;
      LiveLink(before, c, s);
      JoinStep(m, s, rooms, c);
    } else {
      assert rooms + {} == rooms;
    }
  }

  /** The hub's Register calls, applied by the emitter, open exactly the rooms the session joins. */
  lemma {:induction false} RegisterAgrees(m: Index, s: string, infos: seq<Info>, key: Info -> Option<string>)
    ensures Apply(Live(m), RegCalls(s, infos), key) == Live(Resubscribe(m, s, {}, KeySet(infos, key)))
  {
    if infos == [] {
      ResubscribeNothing(m, s);
    } else {
      var init, x := infos[..|infos| - 1], infos[|infos| - 1];
      RegisterAgrees(m, s, init, key);
      var calls := RegCalls(s, infos);
      assert calls[..|calls| - 1] == RegCalls(s, init);
      assert calls == RegCalls(s, init) + [Register(s, x)];
      assert Apply(Live(m), calls, key) == Step(Apply(Live(m), RegCalls(s, init), key), Register(s, x), key);
      var k := KeySet(init, key);
      assert KeySet(infos, key) == k + (if key(x).Some? then {key(x).value} else {});
      RegisterAgreesStep(m, s, k, x, key);
    }
  }

  /** A hub that leaves the rooms of `removed` and joins those of `added`, issuing the
      calls in that order, leaves its emitter holding exactly the hub's non-empty rooms
      when it did so before. */
  lemma EmitterFollowsHub(m: Index, s: string, removed: seq<Info>, added: seq<Info>, key: Info -> Option<string>)
    ensures Apply(Live(m), DeregCalls(s, removed) + RegCalls(s, added), key)
            == Live(Resubscribe(m, s, KeySet(removed, key), KeySet(added, key)))
  {
    ApplyAppend(Live(m), DeregCalls(s, removed), RegCalls(s, added), key);
    DeregisterAgrees(m, s, removed, key);
    RegisterAgrees(Resubscribe(m, s, KeySet(removed, key), {}), s, added, key);
    ResubscribeCompose(m, s, KeySet(removed, key), KeySet(added, key));
  }
}
