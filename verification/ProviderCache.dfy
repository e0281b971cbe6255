/** The provider cache keyed by a configuration fingerprint, under concurrent resolves and store changes. */
module ProviderCache {
  import opened Credentials

  /** `settings` stands for everything but the provider name. */
  datatype Config = Config(providerName: string, settings: string)

  /** What the program links in: JSON encoding of a configuration, and the provider factories. */
  datatype Env<!P> = Env(fingerprint: Config -> string, build: Config -> Option<P>)

  ghost predicate Injective<P>(env: Env<P>) {
    forall c, d :: env.fingerprint(c) == env.fingerprint(d) ==> c == d
  }

  datatype Stored = Stored(tag: string, config: Config)

  datatype Entry<P> = Entry(fingerprint: string, provider: P, name: string)

  datatype Answer<P> = Resolved(provider: P, name: string) | Failed

  /** NormalizeStoredProviderConfig: the store tag fills in a missing name. */
  function Normalized(s: Stored): Config {
    if s.config.providerName == "" then s.config.(providerName := s.tag) else s.config
  }

  /** What a resolve without a cache answers. */
  function Fresh<P>(env: Env<P>, s: Stored): Answer<P> {
    var c := Normalized(s);
    match env.build(c)
    case None => Failed
    case Some(p) => Resolved(p, c.providerName)
  }

  // ----- one resolve, as the code runs it

  /** The answer is a fresh build of the configuration read, under some tag. */
  ghost predicate Current<P>(env: Env<P>, config: Config, a: Answer<P>) {
    exists tag: string :: a == Fresh(env, Stored(tag, config))
  }

  /** For a named configuration the tag is irrelevant. */
  lemma NamedIsFresh<P>(env: Env<P>, s: Stored, a: Answer<P>)
    requires Current(env, s.config, a) && s.config.providerName != ""
    ensures a == Fresh(env, s)
  {
  }

  /** The entry was built from the configuration it carries the fingerprint of. */
  ghost predicate EntryOk<P(!new)>(env: Env<P>, e: Entry<P>) {
    exists c: Config :: e.fingerprint == env.fingerprint(c) && Current(env, c, Resolved(e.provider, e.name))
  }

  ghost predicate CacheOk<P(!new)>(env: Env<P>, cache: map<string, Entry<P>>) {
    forall ref :: ref in cache ==> EntryOk(env, cache[ref])
  }

  class Resolver<P(!new)> {
    var cache: map<string, Entry<P>>

    constructor ()
      ensures cache == map[]
    {
      cache := map[];
    }

    /** `read` is what the store returned, None its error. */
    method ResolveProvider(ref: string, read: Option<Stored>, env: Env<P>) returns (a: Answer<P>)
      requires Injective(env) && CacheOk(env, cache)
      modifies this
      ensures CacheOk(env, cache)
      ensures read.None? ==> a == Failed
      ensures read.Some? ==> Current(env, read.value.config, a)
      ensures read.Some? && read.value.config.providerName != "" ==> a == Fresh(env, read.value)
      ensures cache - {ref} == old(cache) - {ref}
      ensures a == Failed ==> cache == old(cache)
      ensures read.Some? && ref in old(cache) && old(cache)[ref].fingerprint == env.fingerprint(read.value.config) ==>
                cache == old(cache) && a == Resolved(cache[ref].provider, cache[ref].name)
      ensures a.Resolved? ==>
                read.Some? && ref in cache &&
                cache[ref] == Entry(env.fingerprint(read.value.config), a.provider, a.name)
    {
      if read.None? {
        return Failed;
      }
      var s := read.value;
      var fingerprint := env.fingerprint(s.config);
      if ref in cache && cache[ref].fingerprint == fingerprint {
        HitIsCurrent(env, cache[ref], s.config);
        return Resolved(cache[ref].provider, cache[ref].name);
      }
      assert Current(env, s.config, Fresh(env, s)) by {
        assert Stored(s.tag, s.config) == s;
      }
      var config := Normalized(s);
      var built := env.build(config);
      if built.None? {
        return Failed;
      }
      var e := Entry(fingerprint, built.value, config.providerName);
      assert EntryOk(env, e);
      cache := cache[ref := e];
      return Resolved(built.value, config.providerName);
    }
  }

  /** A hit answers what a build from the caller's own read would. */
  lemma HitIsCurrent<P(!new)>(env: Env<P>, e: Entry<P>, config: Config)
    requires Injective(env) && EntryOk(env, e) && e.fingerprint == env.fingerprint(config)
    ensures Current(env, config, Resolved(e.provider, e.name))
  {
  }

  // ----- interleaved resolves

  /** A resolve after its store read, and after its build. */
  datatype Call<P> = HasRead(ref: string, s: Stored) | HasBuilt(ref: string, s: Stored, e: Entry<P>)

  datatype Return<P> = Return(s: Stored, answer: Answer<P>)

  datatype World<P> = World(
    store: map<string, Stored>,
    cache: map<string, Entry<P>>,
    calls: map<nat, Call<P>>,
    answers: seq<Return<P>>)

  datatype Action =
    | PutConfig(ref: string, s: Stored)
    | DropConfig(ref: string)
    | Read(k: nat, ref: string)
    | Look(k: nat)
    | WriteBack(k: nat)

  function Answered<P>(w: World<P>, k: nat, s: Stored, a: Answer<P>): World<P> {
    w.(calls := w.calls - {k}, answers := w.answers + [Return(s, a)])
  }

  /** Look covers the cached answer, a failing build, and a build that still has to be written back. */
  function LookStep<P>(env: Env<P>, w: World<P>, k: nat, ref: string, s: Stored): World<P> {
    var fingerprint := env.fingerprint(s.config);
    if ref in w.cache && w.cache[ref].fingerprint == fingerprint then
      Answered(w, k, s, Resolved(w.cache[ref].provider, w.cache[ref].name))
    else
      match env.build(Normalized(s))
      case None => Answered(w, k, s, Failed)
      case Some(p) => w.(calls := w.calls[k := HasBuilt(ref, s, Entry(fingerprint, p, Normalized(s).providerName))])
  }

  function Next<P>(env: Env<P>, w: World<P>, a: Action): World<P> {
    match a
    case PutConfig(ref, s) => w.(store := w.store[ref := s])
    case DropConfig(ref) => w.(store := w.store - {ref})
    case Read(k, ref) =>
      if k !in w.calls && ref in w.store then w.(calls := w.calls[k := HasRead(ref, w.store[ref])]) else w
    case Look(k) =>
      if k in w.calls && w.calls[k].HasRead? then LookStep(env, w, k, w.calls[k].ref, w.calls[k].s) else w
    case WriteBack(k) =>
      if k in w.calls && w.calls[k].HasBuilt? then
        var c := w.calls[k];
        Answered(w, k, c.s, Resolved(c.e.provider, c.e.name)).(cache := w.cache[c.ref := c.e])
      else w
  }

  function Run<P>(env: Env<P>, w: World<P>, acts: seq<Action>): World<P> {
    if acts == [] then w else Next(env, Run(env, w, acts[..|acts| - 1]), acts[|acts| - 1])
  }

  ghost predicate CallOk<P(!new)>(env: Env<P>, c: Call<P>) {
    c.HasBuilt? ==>
      c.e.fingerprint == env.fingerprint(c.s.config) && Current(env, c.s.config, Resolved(c.e.provider, c.e.name))
  }

  ghost predicate Coherent<P(!new)>(env: Env<P>, w: World<P>) {
    && CacheOk(env, w.cache)
    && (forall k :: k in w.calls ==> CallOk(env, w.calls[k]))
    && (forall i :: 0 <= i < |w.answers| ==> Current(env, w.answers[i].s.config, w.answers[i].answer))
  }

  lemma AnsweredCoherent<P(!new)>(env: Env<P>, w: World<P>, k: nat, s: Stored, a: Answer<P>)
    requires Coherent(env, w) && Current(env, s.config, a)
    ensures Coherent(env, Answered(w, k, s, a))
  {
  }

  lemma NextCoherent<P(!new)>(env: Env<P>, w: World<P>, a: Action)
    requires Injective(env) && Coherent(env, w)
    ensures Coherent(env, Next(env, w, a))
  {
    if a.Look? && a.k in w.calls && w.calls[a.k].HasRead? {
      var c := w.calls[a.k];
      assert Current(env, c.s.config, Fresh(env, c.s)) by {
        assert Stored(c.s.tag, c.s.config) == c.s;
      }
      if c.ref in w.cache && w.cache[c.ref].fingerprint == env.fingerprint(c.s.config) {
        HitIsCurrent(env, w.cache[c.ref], c.s.config);
        AnsweredCoherent(env, w, a.k, c.s, Resolved(w.cache[c.ref].provider, w.cache[c.ref].name));
      } else if env.build(Normalized(c.s)).None? {
        AnsweredCoherent(env, w, a.k, c.s, Failed);
      }
    } else if a.WriteBack? && a.k in w.calls && w.calls[a.k].HasBuilt? {
      var c := w.calls[a.k];
      assert CallOk(env, c);
      assert EntryOk(env, c.e);
      AnsweredCoherent(env, w, a.k, c.s, Resolved(c.e.provider, c.e.name));
    }
  }

  lemma {:induction false} RunCoherent<P(!new)>(env: Env<P>, store: map<string, Stored>, acts: seq<Action>)
    requires Injective(env)
    ensures Coherent(env, Run(env, World(store, map[], map[], []), acts))
  {
    if acts != [] {
      var before := acts[..|acts| - 1];
      RunCoherent(env, store, before);
      NextCoherent(env, Run(env, World(store, map[], map[], []), before), acts[|acts| - 1]);
    }
  }

  /**
   * Whatever the store does and however resolves overlap, each resolve answers with a build of the configuration
   * it read; if that names its provider, with exactly what a fresh build would.
   */
  lemma EveryAnswerFresh<P(!new)>(env: Env<P>, store: map<string, Stored>, acts: seq<Action>, i: nat)
    requires Injective(env) && i < |Run(env, World(store, map[], map[], []), acts).answers|
    ensures var r := Run(env, World(store, map[], map[], []), acts).answers[i];
            && Current(env, r.s.config, r.answer)
            && (r.s.config.providerName != "" ==> r.answer == Fresh(env, r.s))
  {
    RunCoherent(env, store, acts);
    var r := Run(env, World(store, map[], map[], []), acts).answers[i];
    if r.s.config.providerName != "" {
      NamedIsFresh(env, r.s, r.answer);
    }
  }

  /**
   * Without a name the tag matters but is not part of the fingerprint: after a change of tag alone, the cache
   * answers with the provider of the old tag.
   */
  lemma UnnamedIsStale<P>(env: Env<P>, ref: string, settings: string, tag: string, tag': string)
    requires tag != tag' && env.build(Config(tag, settings)).Some?
    ensures var old', new' := Stored(tag, Config("", settings)), Stored(tag', Config("", settings));
            var w: World<P> := World(map[ref := old'], map[], map[], []);
            var w1 := Next(env, Next(env, Next(env, w, Read(0, ref)), Look(0)), WriteBack(0));
            var w2 := Next(env, Next(env, Next(env, w1, PutConfig(ref, new')), Read(1, ref)), Look(1));
            |w2.answers| == 2 && w2.answers[1].s == new' && w2.answers[1].answer != Fresh(env, new')
  {
    var old', new' := Stored(tag, Config("", settings)), Stored(tag', Config("", settings));
    var w: World<P> := World(map[ref := old'], map[], map[], []);
    var p := env.build(Config(tag, settings)).value;
    var e := Entry(env.fingerprint(Config("", settings)), p, tag);
    var wa := Next(env, w, Read(0, ref));
    assert wa.calls == map[0 := HasRead(ref, old')];
    var wb := Next(env, wa, Look(0));
    assert wb.calls == map[0 := HasBuilt(ref, old', e)];
    var w1 := Next(env, wb, WriteBack(0));
    assert w1.cache[ref] == e && w1.calls == map[] && |w1.answers| == 1;
    var wc := Next(env, Next(env, w1, PutConfig(ref, new')), Read(1, ref));
    assert wc.calls[1] == HasRead(ref, new');
    var w2 := Next(env, wc, Look(1));
    assert w2.answers[1] == Return(new', Resolved(p, tag));
  }
}
