/**
 Probe and remove of one card, with interrupts at arbitrary points: the BARs are mapped before the
 handler is registered and unmapped after it is freed.
 */
module Lifecycle {
  import opened Linux
  import opened Options
  import opened Tables
  import opened DeviceNumbers

  type Cookie = nat

  /** The resource flags of a BAR. */
  datatype BarFlags = BarFlags(io: bool, memory: bool)

  predicate Mappable(f: BarFlags) {
    f.io || f.memory
  }

  /** What the kernel answers during one probe. */
  datatype Kernel = Kernel(
    enableStatus: int,        // pci_enable_device
    regionStatus: int,        // pci_request_regions
    allocOk: bool,            // kzalloc
    device: nat,              // the matched id
    flags: seq<BarFlags>,     // pci_resource_flags
    mapOk: seq<bool>,         // pci_iomap
    irqStatus: int,           // request_irq
    createOk: bool)           // device_create

  predicate GoodKernel(k: Kernel) {
    |k.flags| == PCI_STD_NUM_BARS && |k.mapOk| == PCI_STD_NUM_BARS
  }

  predicate Maps(k: Kernel, i: nat)
    requires GoodKernel(k) && i < PCI_STD_NUM_BARS
  {
    Mappable(k.flags[i]) && k.mapOk[i]
  }

  /** Cards whose default BAR is set by their device id. */
  const BAR2_PIDS: set<nat> := {
    0xc2e8, 0xc2e9, 0xc2ea, 0x82e8, 0x82e9, 0x82ea, 0xc258, 0xc259, 0xc25a,
    0x8258, 0x8259, 0x825a, 0x1100, 0xc2ef}

  /** The state an interrupt can meet. */
  datatype Moment = Moment(
    registered: bool,             // the handler can be called
    running: nat,                 // handler runs that have not returned
    live: bool,                   // the context is allocated
    bars: seq<Option<Cookie>>,    // bar_bases
    mapped: set<Cookie>)          // what is mapped

  /** BAR i holds a pointer into a region that is mapped. */
  predicate BarValid(m: Moment, i: nat) {
    i < |m.bars| && m.bars[i].Some? && m.bars[i].value in m.mapped
  }

  /** Any handler that runs finds its context alive and every BAR that probe mapped still mapped. */
  predicate Safe(m: Moment) {
    m.registered || m.running > 0 ==>
      && m.live && |m.bars| == PCI_STD_NUM_BARS
      && forall i :: 0 <= i < PCI_STD_NUM_BARS && m.bars[i].Some? ==> BarValid(m, i)
  }

  /** Any handler that runs finds the BARs it uses mapped. */
  ghost predicate UsesSafe(m: Moment, uses: set<nat>) {
    m.registered || m.running > 0 ==> forall i :: i in uses ==> BarValid(m, i)
  }

  function CookiesOf(bars: seq<Option<Cookie>>): seq<Cookie> {
    if bars == [] then []
    else CookiesOf(bars[..|bars| - 1])
         + if bars[|bars| - 1].Some? then [bars[|bars| - 1].value] else []
  }

  /** Cookies are handed out in order, so those of a context are distinct and newer than first. */
  ghost predicate Rising(cs: seq<Cookie>, first: nat, limit: nat) {
    && (forall i :: 0 <= i < |cs| ==> first <= cs[i] < limit)
    && (forall i, j :: 0 <= i < j < |cs| ==> cs[i] < cs[j])
  }

  /**
   Everything the context maps is mapped, each BAR by its own cookie, and nothing else is but the
   mappings that earlier contexts left behind.
   */
  ghost predicate OwnsMappings(bars: seq<Option<Cookie>>, mapped: set<Cookie>, left: Left,
                               limit: nat)
  {
    && left.first <= limit && Rising(CookiesOf(bars), left.first, limit)
    && mapped == left.mapped + CookieSet(bars)
    && AllBelow(left.mapped, left.first)
  }

  /** What was mapped when a context was allocated, and the first cookie that it could get. */
  datatype Left = Left(mapped: set<Cookie>, first: Cookie)

  ghost predicate AllBelow(cookies: set<Cookie>, limit: nat) {
    forall c :: c in cookies ==> c < limit
  }

  ghost function CookieSet(bars: seq<Option<Cookie>>): set<Cookie> {
    set c | c in CookiesOf(bars)
  }

  lemma CookiesOfOneMore(bars: seq<Option<Cookie>>, b: Option<Cookie>)
    ensures CookiesOf(bars + [b]) == CookiesOf(bars) + if b.Some? then [b.value] else []
  {
    assert (bars + [b])[..|bars|] == bars;
  }

  lemma CookieSetOneMore(bars: seq<Option<Cookie>>, b: Option<Cookie>)
    ensures CookieSet(bars + [b]) == CookieSet(bars) + if b.Some? then {b.value} else {}
  {
    CookiesOfOneMore(bars, b);
  }

  lemma OwnsOneMore(bars: seq<Option<Cookie>>, mapped: set<Cookie>, left: Left, limit: nat)
    requires OwnsMappings(bars, mapped, left, limit)
    ensures OwnsMappings(bars + [Some(limit)], mapped + {limit}, left, limit + 1)
    ensures OwnsMappings(bars + [None], mapped, left, limit)
  {
    CookiesOfOneMore(bars, Some(limit));
    CookiesOfOneMore(bars, None);
    CookieSetOneMore(bars, Some(limit));
    CookieSetOneMore(bars, None);
  }

  lemma {:induction false} BarHasCookie(bars: seq<Option<Cookie>>, i: nat)
    requires i < |bars| && bars[i].Some?
    ensures bars[i].value in CookiesOf(bars)
  {
    if i < |bars| - 1 {
      BarHasCookie(bars[..|bars| - 1], i);
    }
  }

  /** The loop over the BARs has dealt with those below i. */
  ghost predicate MappedUpTo(k: Kernel, i: nat, bars: seq<Option<Cookie>>, mapped: set<Cookie>,
                             left: Left, next: Cookie, start: seq<Cookie>,
                             mappings: seq<Cookie>)
    requires GoodKernel(k) && i <= PCI_STD_NUM_BARS
  {
    && |bars| == PCI_STD_NUM_BARS && OwnsMappings(bars[..i], mapped, left, next)
    && (forall j :: 0 <= j < i ==> (bars[j].Some? <==> Maps(k, j)))
    && (forall j :: i <= j < PCI_STD_NUM_BARS ==> bars[j] == None)
    && mappings == start + CookiesOf(bars[..i])
  }

  lemma MappedOneMore(k: Kernel, i: nat, bars: seq<Option<Cookie>>, mapped: set<Cookie>,
                      left: Left, next: Cookie, start: seq<Cookie>, mappings: seq<Cookie>)
    requires GoodKernel(k) && i < PCI_STD_NUM_BARS && MappedUpTo(k, i, bars, mapped, left, next, start, mappings)
    ensures bars[i := None] == bars
    ensures Maps(k, i) ==>
              MappedUpTo(k, i + 1, bars[i := Some(next)], mapped + {next}, left, next + 1, start,
                         mappings + [next])
    ensures !Maps(k, i) ==> MappedUpTo(k, i + 1, bars, mapped, left, next, start, mappings)
  {
    OwnsOneMore(bars[..i], mapped, left, next);
    CookiesOfOneMore(bars[..i], Some(next));
    CookiesOfOneMore(bars[..i], None);
    if Maps(k, i) {
      assert bars[i := Some(next)][..i + 1] == bars[..i] + [Some(next)];
    } else {
      assert bars[..i + 1] == bars[..i] + [None];
    }
  }

  ghost predicate AllSafe(moments: seq<Moment>) {
    forall k :: 0 <= k < |moments| ==> Safe(moments[k])
  }

  /** Nothing can run and nothing is running. */
  predicate Quiet(m: Moment) {
    !m.registered && m.running == 0
  }

  /** The later history adds only moments at which no handler can run. */
  ghost predicate AddsQuiet(before: seq<Moment>, after: seq<Moment>) {
    before <= after && forall k :: |before| <= k < |after| ==> Quiet(after[k])
  }

  lemma QuietChain(a: seq<Moment>, b: seq<Moment>, c: seq<Moment>)
    requires AddsQuiet(a, b) && AddsQuiet(b, c)
    ensures AddsQuiet(a, c)
  {
    forall k | |a| <= k < |c| ensures Quiet(c[k]) {
      if k < |b| {
        assert c[k] == b[k];
      }
    }
  }

  lemma QuietIsSafe(before: seq<Moment>, after: seq<Moment>)
    requires AddsQuiet(before, after)
    ensures AllSafe(before) ==> AllSafe(after)
    ensures forall uses :: AllUsesSafe(after, |before|, uses)
  {
    if AllSafe(before) {
      forall k | 0 <= k < |after| ensures Safe(after[k]) {
        if k < |before| {
          assert after[k] == before[k];
        }
      }
    }
  }

  /** After quiet moments, one more decides both kinds of safety. */
  lemma OneMoreMoment(start: seq<Moment>, quiet: seq<Moment>, now: Moment, uses: set<nat>)
    requires AllSafe(start) && AddsQuiet(start, quiet)
    ensures AllSafe(quiet + [now]) <==> Safe(now)
    ensures AllUsesSafe(quiet + [now], |start|, uses) <==> UsesSafe(now, uses)
  {
    QuietIsSafe(start, quiet);
    var all := quiet + [now];
    assert all[|quiet|] == now;
    assert forall k :: 0 <= k < |quiet| ==> all[k] == quiet[k];
  }

  ghost predicate AllUsesSafe(moments: seq<Moment>, since: nat, uses: set<nat>) {
    forall k :: since <= k < |moments| ==> UsesSafe(moments[k], uses)
  }

  class Device {
    // the context
    var live: bool
    var bars: seq<Option<Cookie>>
    var defaultBar: nat
    var descriptor: Option<nat>
    var number: nat                   // the context's place among the character devices
    // the kernel's side
    var registered: bool
    var running: nat
    var mapped: set<Cookie>
    var nextCookie: Cookie
    ghost var moments: seq<Moment>    // the state after every kernel operation
    ghost var mappings: seq<Cookie>   // every pci_iomap that succeeded
    ghost var unmappings: seq<Cookie> // every pci_iounmap
    ghost var left: Left              // what earlier contexts left behind

    ghost function Now(): Moment
      reads this`registered, this`running, this`live, this`bars, this`mapped
    {
      Moment(registered, running, live, bars, mapped)
    }

    constructor ()
      ensures Unbound() && Below() && mapped == {}
      ensures Recorded() && moments == [Now()] && mappings == [] && unmappings == []
    {
      live, bars, defaultBar, descriptor, number := false, [], 0, None, 0;
      registered, running, mapped, nextCookie := false, 0, {}, 0;
      mappings, unmappings, left := [], [], Left({}, 0);
      new;
      moments := [Now()];
    }

    /** No driver is bound to the device. */
    predicate Unbound()
      reads this`registered, this`running
    {
      !registered && running == 0
    }

    /** Nothing that a handler could see has changed since the last moment on record. */
    ghost predicate Recorded()
      reads this`registered, this`running, this`live, this`bars, this`mapped, this`moments
    {
      moments != [] && moments[|moments| - 1] == Now()
    }

    /** A new cookie is not in use. */
    ghost predicate Below()
      reads this`mapped, this`nextCookie
    {
      AllBelow(mapped, nextCookie)
    }

    // ---------- kernel operations, each followed by some time ----------

    /** Handlers start and finish as they please, provided one is registered. */
    method Tick()
      modifies this`running, this`moments
      ensures !registered ==> running == old(running)
      ensures moments == old(moments) + [Now()]
    {
      if registered {
        var n: nat := *;
        running := n;
      }
      moments := moments + [Now()];
    }

    method Kzalloc(ok: bool)
      requires Unbound() && Recorded()
      modifies this`live, this`bars, this`defaultBar, this`descriptor, this`running, this`moments
      modifies this`left
      ensures Unbound()
      ensures ok ==> live && left == Left(mapped, nextCookie)
      ensures ok ==> bars == seq(PCI_STD_NUM_BARS, _ => None) && defaultBar == 0 && descriptor == None
      ensures !ok ==> unchanged(this`live, this`bars, this`defaultBar, this`descriptor, this`left)
      ensures moments == old(moments) + [Now()]
    {
      if ok {
        live, bars, defaultBar := true, seq(PCI_STD_NUM_BARS, _ => None), 0;
        descriptor, left := None, Left(mapped, nextCookie);
      }
      Tick();
    }

    /** pci_iomap of one BAR into bar_bases. */
    method Iomap(i: nat, ok: bool)
      requires !registered && running == 0 && live && i < |bars| && Recorded()
      modifies this`bars, this`mapped, this`nextCookie, this`moments, this`mappings, this`running
      ensures running == 0
      ensures if ok then
                && bars == old(bars)[i := Some(old(nextCookie))]
                && mapped == old(mapped) + {old(nextCookie)}
                && nextCookie == old(nextCookie) + 1
                && mappings == old(mappings) + [old(nextCookie)]
              else
                && bars == old(bars)[i := None]
                && unchanged(this`mapped, this`nextCookie, this`mappings)
      ensures moments == old(moments) + [Now()]
    {
      if ok {
        mapped := mapped + {nextCookie};
        mappings := mappings + [nextCookie];
        bars := bars[i := Some(nextCookie)];
        nextCookie := nextCookie + 1;
      } else {
        bars := bars[i := None];
      }
      Tick();
    }

    /** request_irq, with the initialisation of the lock and the queue; it refuses a null handler. */
    method RequestIrq(isr: Isr, answer: int) returns (status: int)
      requires !registered && running == 0 && live && Recorded()
      modifies this`registered, this`running, this`moments
      ensures status == (if isr == NoIsr then -EINVAL else answer)
      ensures registered == (status == 0)
      ensures !registered ==> running == 0
      ensures moments == old(moments) + [Now()]
    {
      status := if isr == NoIsr then -EINVAL else answer;
      registered := status == 0;
      Tick();
    }

    /** free_irq: no run starts any more, and it waits for those under way. */
    method FreeIrq()
      requires live && registered && Recorded()
      modifies this`registered, this`running, this`moments
      ensures !registered && running == 0
      ensures moments == old(moments) + [Now()]
    {
      registered := false;
      running := 0;
      Tick();
    }

    method Iounmap(i: nat)
      requires !registered && running == 0 && live && i < |bars| && bars[i].Some? && Recorded()
      modifies this`mapped, this`running, this`moments, this`unmappings
      ensures running == 0 && mapped == old(mapped) - {bars[i].value}
      ensures unmappings == old(unmappings) + [bars[i].value]
      ensures moments == old(moments) + [Now()]
    {
      mapped := mapped - {bars[i].value};
      unmappings := unmappings + [bars[i].value];
      Tick();
    }

    method Kfree()
      requires !registered && running == 0 && live && Recorded()
      modifies this`live, this`running, this`moments
      ensures !live && running == 0
      ensures moments == old(moments) + [Now()]
    {
      live := false;
      Tick();
    }

    // ---------- accesio_pci_driver_probe ----------

    /** The mapping in one turn of the loop over the BARs. */
    method MapBar(i: nat, k: Kernel, ghost start: seq<Cookie>)
      requires GoodKernel(k) && !registered && running == 0 && live && Recorded()
      requires i < PCI_STD_NUM_BARS
      requires MappedUpTo(k, i, bars, mapped, left, nextCookie, start, mappings)
      modifies this`bars, this`mapped, this`nextCookie, this`moments, this`mappings, this`running
      ensures running == 0 && Recorded()
      ensures MappedUpTo(k, i + 1, bars, mapped, left, nextCookie, start, mappings)
      ensures AddsQuiet(old(moments), moments)
    {
      MappedOneMore(k, i, bars, mapped, left, nextCookie, start, mappings);
      if Mappable(k.flags[i]) {
        Iomap(i, k.mapOk[i]);
      }
    }

    /** The loop over the BARs. */
    method MapBars(k: Kernel)
      requires GoodKernel(k) && Unbound() && live && Recorded()
      requires Below() && left == Left(mapped, nextCookie)
      requires bars == seq(PCI_STD_NUM_BARS, _ => None) && defaultBar == 0
      modifies this`bars, this`mapped, this`nextCookie, this`moments, this`mappings
      modifies this`running, this`defaultBar
      ensures running == 0 && Recorded()
      ensures MappedUpTo(k, PCI_STD_NUM_BARS, bars, mapped, left, nextCookie, old(mappings), mappings)
      ensures defaultBar == if HasPorts(k, PCI_STD_NUM_BARS) then 1 else 0
      ensures AddsQuiet(old(moments), moments)
    {
      for i := 0 to PCI_STD_NUM_BARS
        invariant running == 0 && Recorded()
        invariant MappedUpTo(k, i, bars, mapped, left, nextCookie, old(mappings), mappings)
        invariant defaultBar == if HasPorts(k, i) then 1 else 0
        invariant AddsQuiet(old(moments), moments)
      {
        ghost var before := moments;
        MapBar(i, k, old(mappings));
        QuietChain(old(moments), before, moments);
        if k.flags[i].io {
          defaultBar := 1;
        }
      }
    }

    /** Each BAR is mapped exactly when it is a port or memory region and its mapping succeeded. */
    ghost predicate MappedAs(k: Kernel)
      requires GoodKernel(k)
      reads this`bars
    {
      && |bars| == PCI_STD_NUM_BARS
      && forall i :: 0 <= i < PCI_STD_NUM_BARS ==>
           (bars[i].Some? <==> (k.flags[i].io || k.flags[i].memory) && k.mapOk[i])
    }

    /** The device id decides before the port regions do. */
    ghost predicate DefaultBarAs(k: Kernel)
      requires GoodKernel(k)
      reads this`defaultBar
    {
      && (k.device in BAR2_PIDS ==> defaultBar == 2)
      && (k.device !in BAR2_PIDS ==>
            defaultBar == if exists i :: 0 <= i < PCI_STD_NUM_BARS && k.flags[i].io then 1 else 0)
    }

    /** The library's register calls reach a mapped region. */
    ghost predicate DefaultBarMapped()
      reads this`registered, this`running, this`live, this`bars, this`mapped, this`defaultBar
    {
      BarValid(Now(), defaultBar)
    }

    /** They do exactly when the default BAR is a region and its mapping succeeded. */
    ghost predicate DefaultBarSure(k: Kernel)
      requires GoodKernel(k)
      reads this`registered, this`running, this`live, this`bars, this`mapped, this`defaultBar
    {
      && defaultBar < PCI_STD_NUM_BARS
      && (DefaultBarMapped() <==>
            (k.flags[defaultBar].io || k.flags[defaultBar].memory) && k.mapOk[defaultBar])
    }

    /** The context has its own mappings, besides those that were there before it. */
    ghost predicate NewContext()
      reads this`bars, this`mapped, this`left, this`nextCookie
    {
      |bars| == PCI_STD_NUM_BARS && OwnsMappings(bars, mapped, left, nextCookie)
    }

    /** The context as kzalloc leaves it. */
    ghost predicate Blank()
      reads this`bars, this`defaultBar, this`descriptor
    {
      bars == seq(PCI_STD_NUM_BARS, _ => None) && defaultBar == 0 && descriptor == None
    }

    /** Enable the device, request its regions and allocate its context. */
    method Allocate(k: Kernel) returns (status: int)
      requires GoodKernel(k) && Unbound() && Recorded()
      modifies this`live, this`bars, this`defaultBar, this`descriptor, this`running, this`moments
      modifies this`left
      ensures running == 0 && Recorded() && AddsQuiet(old(moments), moments)
      ensures status == 0 <==> Allocates(k)
      ensures k.enableStatus != 0 ==> status == k.enableStatus
      ensures k.enableStatus == 0 && k.regionStatus != 0 ==> status == k.regionStatus
      ensures k.enableStatus == 0 && k.regionStatus == 0 && !k.allocOk ==> status == -ENOMEM
      ensures Allocates(k) ==> live && Blank() && left == Left(mapped, nextCookie)
      ensures !Allocates(k) ==> unchanged(this`live, this`bars)
    {
      status := k.enableStatus;
      if status != 0 {
        return;
      }
      status := k.regionStatus;
      if status != 0 {
        return;
      }
      Kzalloc(k.allocOk);
      if !k.allocOk {
        return -ENOMEM;
      }
      status := 0;
    }

    /** Find the descriptor, map the BARs and choose the default BAR. */
    method Configure(k: Kernel, descriptors: seq<Descriptor>) returns (status: int)
      requires GoodKernel(k) && Unbound() && live && Recorded() && Blank()
      requires Below() && left == Left(mapped, nextCookie)
      modifies this`bars, this`defaultBar, this`descriptor, this`running, this`moments
      modifies this`mapped, this`nextCookie, this`mappings
      ensures running == 0 && Recorded() && AddsQuiet(old(moments), moments)
      ensures NewContext() && FirstPid(descriptors, k.device, descriptor)
      ensures status == if descriptor == None then -EPERM else 0
      ensures descriptor != None ==> MappedAs(k) && DefaultBarAs(k)
      ensures mappings == old(mappings) + CookiesOf(bars)
    {
      NoCookies(bars);
      descriptor := FindDescriptor(descriptors, k.device);
      if descriptor == None {
        return -EPERM;
      }
      MapBars(k);
      assert bars[..PCI_STD_NUM_BARS] == bars;
      if descriptors[descriptor.value].pid in BAR2_PIDS {
        defaultBar := 2;
      }
      status := 0;
    }

    /** The probe up to the choice of the default BAR. */
    method Prepare(k: Kernel, descriptors: seq<Descriptor>) returns (status: int)
      requires GoodKernel(k) && Unbound() && Below() && Recorded()
      modifies this`live, this`bars, this`defaultBar, this`descriptor, this`running, this`moments
      modifies this`mapped, this`nextCookie, this`mappings, this`left
      ensures running == 0 && Recorded() && AddsQuiet(old(moments), moments)
      ensures status == 0 <==> Allocates(k) && descriptor != None
      ensures status != 0 ==> ProbeStatus(k, descriptor, NoIsr, status)
      ensures Allocates(k) ==> live && NewContext() && left == old(Left(mapped, nextCookie))
      ensures Allocates(k) ==> FirstPid(descriptors, k.device, descriptor)
      ensures Allocates(k) && descriptor != None ==> MappedAs(k) && DefaultBarAs(k)
      ensures !Allocates(k) ==> unchanged(this`live, this`bars, this`mapped, this`nextCookie)
      ensures mappings == old(mappings) + if Allocates(k) then CookiesOf(bars) else []
    {
      status := Allocate(k);
      if status != 0 {
        return;
      }
      ghost var before := moments;
      status := Configure(k, descriptors);
      QuietChain(old(moments), before, moments);
    }

    /** The registration of the handler, after the moments in which nothing could run. */
    method RegisterHandler(k: Kernel, isr: Isr, ghost start: seq<Moment>) returns (status: int)
      requires GoodKernel(k) && Unbound() && live && NewContext() && Recorded()
      requires MappedAs(k) && DefaultBarAs(k)
      requires AllSafe(start) && AddsQuiet(start, moments)
      modifies this`registered, this`running, this`moments
      ensures status == (if isr == NoIsr then -EINVAL else k.irqStatus)
      ensures registered == (status == 0) && Recorded()
      ensures !registered ==> running == 0
      ensures AllSafe(moments) && |start| <= |moments|
      ensures AllUsesSafe(moments, |start|, BarsOf(isr))
         <==> !registered || AllMapped(k, BarsOf(isr))
      ensures registered ==> DefaultBarSure(k)
    {
      AllBarsValid(bars, mapped, left, nextCookie);
      ghost var quiet := moments;
      status := RequestIrq(isr, k.irqStatus);
      OneMoreMoment(start, quiet, Now(), BarsOf(isr));
    }

    /** The probe up to the registration of the handler. */
    method ProbeCard(k: Kernel, descriptors: seq<Descriptor>) returns (status: int)
      requires GoodKernel(k) && Unbound() && Below() && Recorded() && AllSafe(moments)
      modifies this`live, this`bars, this`defaultBar, this`descriptor, this`running, this`moments
      modifies this`mapped, this`nextCookie, this`mappings, this`left, this`registered
      ensures Recorded() && AllSafe(moments) && |old(moments)| <= |moments|
      ensures Allocates(k) ==> live && NewContext() && left == old(Left(mapped, nextCookie))
      ensures Allocates(k) ==> FirstPid(descriptors, k.device, descriptor)
      ensures Allocates(k) && descriptor != None ==> MappedAs(k) && DefaultBarAs(k)
      ensures !Allocates(k) ==> unchanged(this`live, this`bars, this`mapped, this`nextCookie)
      ensures ProbeStatus(k, descriptor, IsrOf(descriptors, descriptor), status)
      ensures registered <==> status == 0
      ensures registered ==> IsrOf(descriptors, descriptor) != NoIsr
      ensures !registered ==> running == 0
      ensures mappings == old(mappings) + if Allocates(k) then CookiesOf(bars) else []
      ensures var uses := BarsOf(IsrOf(descriptors, descriptor));
              AllUsesSafe(moments, |old(moments)|, uses) <==> !registered || AllMapped(k, uses)
      ensures registered ==> DefaultBarSure(k)
    {
      status := Prepare(k, descriptors);
      if status != 0 {
        QuietIsSafe(old(moments), moments);
        return;
      }
      status := RegisterHandler(k, IsrOf(descriptors, descriptor), old(moments));
    }

    /**
     The probe.  Whatever fails, every moment is safe, and the handler is registered only after
     the BARs were mapped.  The BARs that the card's handler uses are sure to be mapped exactly when
     each is a port or memory region and its mapping succeeded: the probe goes on without them.
     The same holds of the default BAR, which the library's register calls use.
     */
    method Probe(k: Kernel, descriptors: seq<Descriptor>, driver: CharDriver)
      returns (status: int)
      requires GoodKernel(k) && Unbound() && Below() && Recorded() && AllSafe(moments)
      requires driver.Valid()
      modifies this, driver
      ensures driver.Valid() && Recorded() && AllSafe(moments) && |old(moments)| <= |moments|
      ensures Allocates(k) ==> live && NewContext() && left == old(Left(mapped, nextCookie))
      ensures Allocates(k) ==> FirstPid(descriptors, k.device, descriptor)
      ensures Allocates(k) && descriptor != None ==> MappedAs(k) && DefaultBarAs(k)
      ensures !Allocates(k) ==> unchanged(this`live, this`bars, this`mapped, this`nextCookie)
      ensures ProbeStatus(k, descriptor, IsrOf(descriptors, descriptor), status)
      ensures registered <==> status == 0
      ensures registered ==> IsrOf(descriptors, descriptor) != NoIsr
      ensures !registered ==> running == 0
      ensures unmappings == old(unmappings)
      ensures mappings == old(mappings) + if Allocates(k) then CookiesOf(bars) else []
      ensures driver.created == old(driver.created) + if registered then [k.createOk] else []
      ensures registered ==> number == |old(driver.contexts)| < |driver.contexts|
      ensures var uses := BarsOf(IsrOf(descriptors, descriptor));
              AllUsesSafe(moments, |old(moments)|, uses) <==> !registered || AllMapped(k, uses)
      ensures registered ==> DefaultBarSure(k)
    {
      status := ProbeCard(k, descriptors);
      if status == 0 {
        number := driver.AddDevice(k.createOk);
      }
    }

    // ---------- accesio_pci_driver_remove ----------

    /** The loop of remove has dealt with the BARs below i. */
    ghost predicate UnmappedUpTo(i: nat, wasMapped: set<Cookie>, start: seq<Cookie>)
      requires i <= |bars|
      reads this`registered, this`running, this`live, this`bars
      reads this`mapped, this`moments, this`unmappings
    {
      && Quiet(Now()) && live && Recorded()
      && unmappings == start + CookiesOf(bars[..i])
      && mapped == wasMapped - CookieSet(bars[..i])
    }

    method UnmapBar(i: nat, ghost wasMapped: set<Cookie>, ghost start: seq<Cookie>)
      requires i < |bars| && UnmappedUpTo(i, wasMapped, start)
      modifies this`mapped, this`running, this`moments, this`unmappings
      ensures UnmappedUpTo(i + 1, wasMapped, start)
      ensures AddsQuiet(old(moments), moments)
    {
      assert bars[..i + 1] == bars[..i] + [bars[i]];
      CookiesOfOneMore(bars[..i], bars[i]);
      CookieSetOneMore(bars[..i], bars[i]);
      if bars[i] != None {
        Iounmap(i);
      }
    }

    /**
     The remove of a card whose probe succeeded: the handler goes first, then exactly the BARs
     that probe mapped are unmapped, each once, and the context last; what earlier contexts left
     behind stays mapped.
     */
    method Remove(driver: CharDriver)
      requires driver.Valid() && number < |driver.contexts|
      requires live && registered && NewContext() && Recorded() && AllSafe(moments)
      modifies this`registered, this`running, this`moments, this`mapped, this`unmappings, this`live
      modifies driver
      ensures Unbound() && !live && Recorded() && AllSafe(moments)
      ensures unmappings == old(unmappings) + CookiesOf(bars) && mapped == left.mapped
      ensures driver.Valid() && |driver.contexts| == |old(driver.contexts)|
      ensures forall j :: 0 <= j < |driver.contexts| && j != number ==>
                driver.contexts[j]
                == WithoutNode(old(driver.contexts)[j], old(driver.contexts)[number].dev)
      ensures driver.contexts[number]
           == old(driver.contexts)[number].(node := false, removed := true)
    {
      FreeIrq();
      for i := 0 to PCI_STD_NUM_BARS
        invariant UnmappedUpTo(i, old(mapped), old(unmappings))
        invariant AddsQuiet(old(moments), moments)
        invariant unchanged(driver)
      {
        ghost var before := moments;
        UnmapBar(i, old(mapped), old(unmappings));
        QuietChain(old(moments), before, moments);
      }
      assert bars[..PCI_STD_NUM_BARS] == bars;
      OnlyLeft(bars, old(mapped), left, nextCookie);
      driver.RemoveDevice(number);
      Kfree();
      QuietIsSafe(old(moments), moments);
    }
  }

  /** Some BAR below n is a port region. */
  predicate HasPorts(k: Kernel, n: nat)
    requires GoodKernel(k) && n <= PCI_STD_NUM_BARS
  {
    exists i :: 0 <= i < n && k.flags[i].io
  }

  function IsrOf(descriptors: seq<Descriptor>, found: Option<nat>): Isr {
    if found.Some? && found.value < |descriptors| then descriptors[found.value].isr else NoIsr
  }

  predicate AllMapped(k: Kernel, uses: set<nat>)
    requires GoodKernel(k)
  {
    forall i :: i in uses ==> i < PCI_STD_NUM_BARS && Maps(k, i)
  }

  /** The first step that fails gives the status; request_irq refuses a null handler. */
  predicate ProbeStatus(k: Kernel, descriptor: Option<nat>, isr: Isr, status: int) {
    && (k.enableStatus != 0 ==> status == k.enableStatus)
    && (k.enableStatus == 0 && k.regionStatus != 0 ==> status == k.regionStatus)
    && (k.enableStatus == 0 && k.regionStatus == 0 && !k.allocOk ==> status == -ENOMEM)
    && (Allocates(k) && descriptor == None ==> status == -EPERM)
    && (Allocates(k) && descriptor != None && isr == NoIsr ==> status == -EINVAL)
    && (Allocates(k) && descriptor != None && isr != NoIsr ==> status == k.irqStatus)
  }

  /** The probe gets as far as a new context. */
  predicate Allocates(k: Kernel) {
    k.enableStatus == 0 && k.regionStatus == 0 && k.allocOk
  }

  lemma OnlyLeft(bars: seq<Option<Cookie>>, mapped: set<Cookie>, left: Left, limit: nat)
    requires OwnsMappings(bars, mapped, left, limit)
    ensures left.mapped !! CookieSet(bars)
    ensures mapped - CookieSet(bars) == left.mapped
  {
  }

  lemma {:induction false} NoCookies(bars: seq<Option<Cookie>>)
    requires forall i :: 0 <= i < |bars| ==> bars[i] == None
    ensures CookiesOf(bars) == []
  {
    if bars != [] {
      NoCookies(bars[..|bars| - 1]);
    }
  }

  lemma AllBarsValid(bars: seq<Option<Cookie>>, mapped: set<Cookie>, left: Left, limit: nat)
    requires OwnsMappings(bars, mapped, left, limit)
    ensures forall i :: 0 <= i < |bars| && bars[i].Some? ==> bars[i].value in mapped
  {
    forall i | 0 <= i < |bars| && bars[i].Some? ensures bars[i].value in mapped {
      BarHasCookie(bars, i);
    }
  }

  // ---------- whole lives ----------

  /** Every mapping ever made is either still there or was taken away, and that once. */
  ghost predicate Ledger(mappings: seq<Cookie>, unmappings: seq<Cookie>, mapped: set<Cookie>,
                         next: Cookie)
  {
    && Rising(mappings, 0, next) && AllBelow(mapped, next)
    && multiset(mappings) == multiset(unmappings) + multiset(mapped)
  }

  lemma OnceMore(cs: seq<Cookie>, c: Cookie)
    requires multiset(cs) == multiset(set d | d in cs) && c !in cs
    ensures multiset(cs + [c]) == multiset(set d | d in cs + [c])
  {
    var before, after := set d | d in cs, set d | d in cs + [c];
    assert after == before + {c};
    assert multiset(after) == multiset(before) + multiset{c};
  }

  lemma {:induction false} RisingIsSet(cs: seq<Cookie>, first: nat, limit: nat)
    requires Rising(cs, first, limit)
    ensures multiset(cs) == multiset(set c | c in cs)
  {
    if cs != [] {
      var front, last := cs[..|cs| - 1], cs[|cs| - 1];
      assert Rising(front, first, limit) && last !in front;
      RisingIsSet(front, first, limit);
      OnceMore(front, last);
      assert cs == front + [last];
    }
  }

  lemma LedgerMaps(mappings: seq<Cookie>, unmappings: seq<Cookie>, before: set<Cookie>,
                   bars: seq<Option<Cookie>>, mapped: set<Cookie>, first: Cookie, next: Cookie)
    requires Ledger(mappings, unmappings, before, first)
    requires OwnsMappings(bars, mapped, Left(before, first), next)
    ensures Ledger(mappings + CookiesOf(bars), unmappings, mapped, next)
  {
    RisingIsSet(CookiesOf(bars), first, next);
    OnlyLeft(bars, mapped, Left(before, first), next);
    assert multiset(mapped) == multiset(before) + multiset(CookieSet(bars));
  }

  lemma LedgerUnmaps(mappings: seq<Cookie>, unmappings: seq<Cookie>, mapped: set<Cookie>,
                     bars: seq<Option<Cookie>>, left: Left, next: Cookie)
    requires Ledger(mappings, unmappings, mapped, next) && OwnsMappings(bars, mapped, left, next)
    ensures Ledger(mappings, unmappings + CookiesOf(bars), left.mapped, next)
  {
    RisingIsSet(CookiesOf(bars), left.first, next);
    OnlyLeft(bars, mapped, left, next);
    assert multiset(mapped) == multiset(left.mapped) + multiset(CookieSet(bars));
  }

  /** The device between two lives. */
  ghost predicate Resting(device: Device)
    reads device
  {
    && device.Unbound() && device.Recorded() && AllSafe(device.moments)
    && Ledger(device.mappings, device.unmappings, device.mapped, device.nextCookie)
  }

  /** A probe, with the ledger of the device kept. */
  method Bind(device: Device, k: Kernel, descriptors: seq<Descriptor>, driver: CharDriver)
    returns (status: int)
    requires GoodKernel(k) && Resting(device) && driver.Valid()
    modifies device, driver
    ensures driver.Valid() && device.Recorded() && AllSafe(device.moments)
    ensures Ledger(device.mappings, device.unmappings, device.mapped, device.nextCookie)
    ensures if status == 0 then
              && device.live && device.registered && device.NewContext()
              && device.left.mapped == old(device.mapped)
              && device.number < |driver.contexts|
            else device.Unbound()
    ensures status == 0 ==> Allocates(k)
    ensures device.unmappings == old(device.unmappings)
    ensures device.mappings
         == old(device.mappings) + if Allocates(k) then CookiesOf(device.bars) else []
    ensures device.mapped
         == old(device.mapped) + if Allocates(k) then CookieSet(device.bars) else {}
  {
    status := device.Probe(k, descriptors, driver);
    if Allocates(k) {
      LedgerMaps(old(device.mappings), device.unmappings, old(device.mapped), device.bars,
                 device.mapped, old(device.nextCookie), device.nextCookie);
    }
  }

  /** A remove, with the ledger of the device kept. */
  method Unbind(device: Device, driver: CharDriver)
    requires driver.Valid() && device.number < |driver.contexts|
    requires device.live && device.registered && device.NewContext() && device.Recorded()
    requires AllSafe(device.moments)
    requires Ledger(device.mappings, device.unmappings, device.mapped, device.nextCookie)
    modifies device, driver
    ensures Resting(device) && driver.Valid() && !device.live
    ensures device.mapped == old(device.left.mapped) && device.bars == old(device.bars)
    ensures device.mappings == old(device.mappings)
    ensures device.unmappings == old(device.unmappings) + CookiesOf(device.bars)
  {
    LedgerUnmaps(device.mappings, device.unmappings, device.mapped, device.bars, device.left,
                 device.nextCookie);
    device.Remove(driver);
  }

  /**
   A whole life: probe and, if it succeeded, remove, with handlers running whenever they like.
   No handler ever meets a missing context or an unmapped BAR, and what was mapped is unmapped in
   the same order, each BAR once.  A probe that fails leaves its mappings behind.
   */
  method Lifetime(device: Device, k: Kernel, descriptors: seq<Descriptor>, driver: CharDriver)
    returns (status: int)
    requires GoodKernel(k) && Resting(device) && driver.Valid()
    modifies device, driver
    ensures Resting(device) && driver.Valid()
    ensures status == 0 ==> !device.live && device.mapped == old(device.mapped)
    ensures status == 0 ==> device.mappings == old(device.mappings) + CookiesOf(device.bars)
    ensures status == 0 ==> device.unmappings == old(device.unmappings) + CookiesOf(device.bars)
    ensures status != 0 ==> device.unmappings == old(device.unmappings)
    ensures status != 0 ==>
              device.mapped
              == old(device.mapped) + if Allocates(k) then CookieSet(device.bars) else {}
  {
    status := Bind(device, k, descriptors, driver);
    if status == 0 {
      Unbind(device, driver);
    }
  }

  /**
   Any number of probes of one device, each removed again if it succeeded.  Every moment of all of
   them is safe, every mapping is still there or was taken away once, and what stays mapped was
   mapped by probes that failed after they had allocated a context.
   */
  method Lifetimes(device: Device, ks: seq<Kernel>, descriptors: seq<Descriptor>, driver: CharDriver)
    returns (statuses: seq<int>)
    requires forall i :: 0 <= i < |ks| ==> GoodKernel(ks[i])
    requires Resting(device) && driver.Valid()
    modifies device, driver
    ensures |statuses| == |ks| && Resting(device) && driver.Valid()
    ensures old(device.mapped) <= device.mapped
    ensures (forall i :: 0 <= i < |ks| && Allocates(ks[i]) ==> statuses[i] == 0) ==>
              device.mapped == old(device.mapped)
  {
    statuses := [];
    for n := 0 to |ks|
      invariant |statuses| == n && Resting(device) && driver.Valid()
      invariant old(device.mapped) <= device.mapped
      invariant (forall i :: 0 <= i < n && Allocates(ks[i]) ==> statuses[i] == 0) ==>
                  device.mapped == old(device.mapped)
    {
      ghost var before := statuses;
      var status := Lifetime(device, ks[n], descriptors, driver);
      statuses := statuses + [status];
      assert forall i :: 0 <= i < n ==> statuses[i] == before[i];
    }
  }

  /**
   A probe that goes wrong and still returns 0: BAR 2 of an ADIO16 cannot be mapped, its handler is
   registered all the same and finds no status register, and the default BAR is missing too.
   */
  method ProbeWithoutBar2() returns (device: Device, status: int)
    ensures status == 0 && device.registered
    ensures !AllUsesSafe(device.moments, 0, BarsOf(Adio16fStyle))
    ensures device.defaultBar == 2 && !device.DefaultBarMapped()
  {
    device := new Device();
    var driver := new CharDriver(0);
    var memory := BarFlags(false, true);
    var k := Kernel(0, 0, true, 0xc2ef, [memory, memory, memory, memory, memory, memory],
                    [true, true, false, true, true, true], 0, true);
    assert k.flags[2] == memory && !Maps(k, 2);
    var descriptors := [Descriptor(0xc2ef, "pcie-adio16-16fds", Adio16fStyle)];
    status := device.Probe(k, descriptors, driver);
    assert descriptors[0].pid == k.device;
    assert device.descriptor == Some(0);
  }

  /** A card whose id overrides the default BAR keeps BAR 2 though BAR 1 is a port region. */
  method OverrideBeatsPorts() returns (device: Device, status: int)
    ensures status == 0 && device.registered
    ensures device.defaultBar == 2 && device.DefaultBarMapped()
  {
    device := new Device();
    var driver := new CharDriver(0);
    var memory, ports := BarFlags(false, true), BarFlags(true, false);
    var k := Kernel(0, 0, true, 0xc2ef, [memory, ports, memory, memory, memory, memory],
                    [true, true, true, true, true, true], 0, true);
    assert k.flags[2] == memory;
    var descriptors := [Descriptor(0xc2ef, "pcie-adio16-16fds", Adio16fStyle)];
    status := device.Probe(k, descriptors, driver);
    assert descriptors[0].pid == k.device;
    assert device.descriptor == Some(0);
  }
}
