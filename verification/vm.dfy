/** Creating and removing the virtual machine of a job, and what each way out leaves on the host. */
module Vm {
  type Uuid = nat

  /** What the host holds: overlay files, nvram files, defined domains and running ones, by job uuid. */
  datatype HostState = HostState(overlays: set<Uuid>, nvrams: set<Uuid>, domains: set<Uuid>, running: set<Uuid>)

  /** How the foreign calls of one creation or removal turn out. */
  datatype Calls = Calls(
    masterImage: bool,        // the master image exists
    overlayMade: bool,        // qemu-img runs and succeeds
    masterNvram: bool,        // the master nvram exists
    nvramCopied: bool,
    defined: bool,            // the domain can be defined
    started: bool,            // and started
    destroyed: bool,          // stopping it works
    undefinedNvram: bool,     // undefine with the nvram flag works
    undefined: bool,          // plain undefine works
    networksListed: bool,
    namesRead: bool,          // every network tells its name; one that does not panics the task
    networkFound: bool,       // one of them is the default network
    leaseFound: bool,         // and leases the machine an address in time
    overlayRemoved: bool,     // removing the overlay file works
    nvramRemoved: bool)       // removing the nvram file works

  datatype Creation = Created | Refused | Panicked

  // ----- the outcome, by how far the creation gets -----

  predicate OverlayMade(h: HostState, d: Uuid, c: Calls) {
    c.masterImage && d !in h.overlays && c.overlayMade
  }

  predicate FilesMade(h: HostState, d: Uuid, c: Calls) {
    OverlayMade(h, d, c) && c.masterNvram && d !in h.nvrams && c.nvramCopied
  }

  predicate DomainRuns(h: HostState, d: Uuid, c: Calls) {
    FilesMade(h, d, c) && c.defined && c.started
  }

  function CreationOf(h: HostState, d: Uuid, c: Calls): Creation {
    if !DomainRuns(h, d, c) || !c.networksListed then Refused
    else if !c.namesRead then Panicked
    else if c.networkFound && c.leaseFound then Created
    else Refused
  }

  /** The domain is there after the creation: it runs, or it would not start and can be undefined in neither way. */
  predicate DomainLeft(h: HostState, d: Uuid, c: Calls) {
    FilesMade(h, d, c) && c.defined && (c.started || (!c.undefinedNvram && !c.undefined))
  }

  /** A refused creation keeps neither file it made unless removing it fails. */
  function HostAfter(h: HostState, d: Uuid, c: Calls): HostState {
    var refused := CreationOf(h, d, c).Refused?;
    HostState(
      if OverlayMade(h, d, c) && !(refused && c.overlayRemoved) then h.overlays + {d} else h.overlays,
      if FilesMade(h, d, c) && !(refused && c.nvramRemoved) then h.nvrams + {d} else h.nvrams,
      if !FilesMade(h, d, c) || !c.defined then h.domains
      else if DomainLeft(h, d, c) then h.domains + {d}
      else h.domains - {d},
      if DomainRuns(h, d, c) then h.running + {d} else h.running)
  }

  /** What a removal leaves. */
  function HostWithout(h: HostState, d: Uuid, c: Calls): HostState {
    HostState(if c.overlayRemoved then h.overlays - {d} else h.overlays,
              if c.nvramRemoved then h.nvrams - {d} else h.nvrams,
              if c.undefinedNvram then h.domains - {d} else h.domains,
              if c.destroyed then h.running - {d} else h.running)
  }

  class VmManager {
    var overlays: set<Uuid>
    var nvrams: set<Uuid>
    var domains: set<Uuid>
    var running: set<Uuid>

    function Host(): HostState
      reads this
    {
      HostState(overlays, nvrams, domains, running)
    }

    method CreateOverlay(d: Uuid, c: Calls) returns (ok: bool)
      modifies this`overlays
      ensures ok == OverlayMade(old(Host()), d, c)
      ensures overlays == if ok then old(overlays) + {d} else old(overlays)
    {
      if !c.masterImage { return false; }
      if d in overlays { return false; }
      if !c.overlayMade { return false; }
      overlays := overlays + {d};
      return true;
    }

    method CreateNvram(d: Uuid, c: Calls) returns (ok: bool)
      modifies this`nvrams
      ensures ok == (c.masterNvram && d !in old(nvrams) && c.nvramCopied)
      ensures nvrams == if ok then old(nvrams) + {d} else old(nvrams)
    {
      if !c.masterNvram { return false; }
      if d in nvrams { return false; }
      if !c.nvramCopied { return false; }
      nvrams := nvrams + {d};
      return true;
    }

    method RemoveFiles(d: Uuid, c: Calls)
      modifies this`overlays, this`nvrams
      ensures overlays == if c.overlayRemoved then old(overlays) - {d} else old(overlays)
      ensures nvrams == if c.nvramRemoved then old(nvrams) - {d} else old(nvrams)
    {
      if c.overlayRemoved { overlays := overlays - {d}; }
      if c.nvramRemoved { nvrams := nvrams - {d}; }
    }

    /** Defines the domain; one that does not start is undefined again, with the nvram flag or else without. */
    method DefineAndStart(d: Uuid, c: Calls) returns (ok: bool)
      modifies this`domains, this`running
      ensures ok == (c.defined && c.started)
      ensures running == if ok then old(running) + {d} else old(running)
      ensures domains == if c.defined && (c.started || (!c.undefinedNvram && !c.undefined)) then old(domains) + {d}
                         else if c.defined then old(domains) - {d} else old(domains)
    {
      if !c.defined { return false; }
      domains := domains + {d};
      if !c.started {
        if !c.undefinedNvram {
          if !c.undefined { return false; }
          domains := domains - {d};
          return false;
        }
        domains := domains - {d};
        return false;
      }
      running := running + {d};
      return true;
    }

    /** `create_job_domain`. */
    method CreateJobDomain(d: Uuid, c: Calls) returns (r: Creation)
      modifies this
      ensures r == CreationOf(old(Host()), d, c)
      ensures Host() == HostAfter(old(Host()), d, c)
    {
      var ok := CreateOverlay(d, c);
      if !ok { return Refused; }
      ok := CreateNvram(d, c);
      if !ok {
        if c.overlayRemoved { overlays := overlays - {d}; }
        return Refused;
      }
      ok := DefineAndStart(d, c);
      if !ok {
        RemoveFiles(d, c);
        return Refused;
      }
      if !c.networksListed {
        RemoveFiles(d, c);
        return Refused;
      }
      if !c.namesRead {
        return Panicked;
      }
      if c.networkFound {
        if !c.leaseFound {
          RemoveFiles(d, c);
          return Refused;
        }
      } else {
        RemoveFiles(d, c);
        return Refused;
      }
      return Created;
    }

    /** `JobDomain::teardown`: every step is tried whatever the others did. */
    method Teardown(d: Uuid, c: Calls)
      modifies this
      ensures Host() == HostWithout(old(Host()), d, c)
    {
      if c.destroyed { running := running - {d}; }
      if c.undefinedNvram { domains := domains - {d}; }
      if c.overlayRemoved { overlays := overlays - {d}; }
      if c.nvramRemoved { nvrams := nvrams - {d}; }
    }
  }

  predicate Removable(c: Calls) {
    c.overlayRemoved && c.nvramRemoved
  }

  function One(b: bool, d: Uuid): set<Uuid> {
    if b then {d} else {}
  }

  function Union(a: HostState, b: HostState): HostState {
    HostState(a.overlays + b.overlays, a.nvrams + b.nvrams, a.domains + b.domains, a.running + b.running)
  }

  /** What a refused creation leaves behind. */
  function Leftover(h: HostState, d: Uuid, c: Calls): HostState {
    HostState(One(OverlayMade(h, d, c) && !c.overlayRemoved, d), One(FilesMade(h, d, c) && !c.nvramRemoved, d),
              One(DomainLeft(h, d, c), d), One(DomainRuns(h, d, c), d))
  }

  /** What a removal fails to remove. */
  function Unremoved(d: Uuid, c: Calls): HostState {
    HostState(One(!c.overlayRemoved, d), One(!c.nvramRemoved, d), One(!c.undefinedNvram, d), One(!c.destroyed, d))
  }

  predicate New(h: HostState, d: Uuid) {
    d !in h.overlays && d !in h.nvrams && d !in h.domains && d !in h.running
  }

  /** A creation adds a new machine with all it consists of, or if it is refused the leftovers. */
  lemma CreationAdds(h: HostState, d: Uuid, c: Calls)
    requires New(h, d)
    ensures HostAfter(h, d, c)
         == Union(h, if CreationOf(h, d, c).Refused? then Leftover(h, d, c) else HostState({d}, {d}, {d}, {d}))
  {
    var after := HostAfter(h, d, c);
    assert h.domains - {d} == h.domains;
    assert h.overlays + {} == h.overlays && h.nvrams + {} == h.nvrams && h.running + {} == h.running;
  }

  /** When removals work, a refused creation leaves no file at any of its failure points. */
  lemma RefusedLeavesNoFiles(h: HostState, d: Uuid, c: Calls)
    requires CreationOf(h, d, c).Refused? && Removable(c)
    ensures HostAfter(h, d, c).overlays == h.overlays && HostAfter(h, d, c).nvrams == h.nvrams
  {
  }

  /** Then, for a new machine, it restores the host exactly unless the domain is left behind: defined if it ran or could
      be undefined in neither way, running if it ran. */
  lemma RefusedRestoresHost(h: HostState, d: Uuid, c: Calls)
    requires CreationOf(h, d, c).Refused? && Removable(c) && New(h, d)
    ensures HostAfter(h, d, c) == h <==> !DomainLeft(h, d, c)
    ensures d in HostAfter(h, d, c).domains <==> DomainLeft(h, d, c)
    ensures d in HostAfter(h, d, c).running <==> DomainRuns(h, d, c)
  {
    assert !DomainLeft(h, d, c) ==> HostAfter(h, d, c).domains == h.domains;
  }

  const ALL_WELL := Calls(true, true, true, true, true, true, true, true, true, true, true, true, true, true, true)

  /** A machine that gets no address in time: the creation is refused, its files are gone, and its domain runs on. */
  lemma NoLeaseLeavesDomain(d: Uuid)
    ensures var h, c := HostState({}, {}, {}, {}), ALL_WELL.(leaseFound := false);
            CreationOf(h, d, c).Refused? && HostAfter(h, d, c) == HostState({}, {}, {d}, {d})
  {
  }

  /** Creating a new machine and tearing it down restores the host exactly when the four removals work. */
  lemma TeardownUndoesCreation(h: HostState, d: Uuid, c: Calls, e: Calls)
    requires CreationOf(h, d, c).Created? && New(h, d)
    ensures HostWithout(HostAfter(h, d, c), d, e) == h <==> Removable(e) && e.undefinedNvram && e.destroyed
  {
    var t := HostWithout(HostAfter(h, d, c), d, e);
    assert Removable(e) ==> t.overlays == h.overlays && t.nvrams == h.nvrams;
    assert e.undefinedNvram ==> t.domains == h.domains;
    assert e.destroyed ==> t.running == h.running;
    assert !e.overlayRemoved ==> d in t.overlays;
    assert !e.nvramRemoved ==> d in t.nvrams;
  }
}
