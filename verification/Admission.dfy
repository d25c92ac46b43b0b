/** The admission rules the profile kinds share, and what they keep over a whole run of requests. */
module Admission {

  datatype Profile<D> = Profile(namespace: string, data: D)

  /** What distinguishes one kind of profile from another at admission. */
  datatype Policy<!D> = Policy(isPinned: D -> bool, contentOk: D -> bool, freezesPinned: bool)

  ghost predicate AcceptsCreate<D>(p: Policy<D>, profileNamespace: string, r: Profile<D>) {
    && (p.isPinned(r.data) || r.namespace == profileNamespace)
    && p.contentOk(r.data)
  }

  ghost predicate AcceptsUpdate<D(!new)>(p: Policy<D>, stored: D, r: D) {
    && p.isPinned(stored) == p.isPinned(r)
    && (p.freezesPinned && p.isPinned(stored) ==> r == stored)
    && p.contentOk(r)
  }

  /** The stored profile after a series of update requests, of which only the accepted ones take effect. */
  ghost function Run<D(!new)>(p: Policy<D>, created: Profile<D>, requests: seq<D>): Profile<D> {
    if requests == [] then created
    else
      var before := Run(p, created, requests[..|requests| - 1]);
      var r := requests[|requests| - 1];
      if AcceptsUpdate(p, before.data, r) then before.(data := r) else before
  }

  /** Every stored state: the pin is for life, a pinned profile of a freezing kind still holds what it was created
      with, its content is valid, and an unpinned one lives where users look for profiles. */
  lemma {:induction false} RunKeeps<D(!new)>(
    p: Policy<D>, profileNamespace: string, created: Profile<D>, requests: seq<D>)
    requires AcceptsCreate(p, profileNamespace, created)
    ensures var now := Run(p, created, requests);
      && p.isPinned(now.data) == p.isPinned(created.data)
      && (p.freezesPinned && p.isPinned(created.data) ==> now.data == created.data)
      && p.contentOk(now.data)
      && (!p.isPinned(now.data) ==> now.namespace == profileNamespace)
  {
    if requests != [] {
      RunKeeps(p, profileNamespace, created, requests[..|requests| - 1]);
    }
  }

  /** An unpinned profile can become any other valid unpinned one; the rules lose nothing else. */
  lemma UnpinnedCanBecomeAnything<D(!new)>(p: Policy<D>, created: Profile<D>, d: D)
    requires !p.isPinned(created.data) && !p.isPinned(d) && p.contentOk(d)
    ensures Run(p, created, [d]).data == d
  {
    assert [d][..0] == [];
    assert Run(p, created, [d][..0]) == created;
  }
}
