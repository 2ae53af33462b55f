/** The extends directive of internal/discovery/parser.go: a recursive, depth-bounded
    resolution that folds mergeService from the most distant ancestor down. */
module Extends {
  import opened Includes
  import opened Merge
  import opened Options

  datatype Failure = TooDeep | Unreadable(path: string) | NoService(path: string, name: string)

  datatype Result = Ok(svc: Svc) | Err(failure: Failure)

  /** resolveExtends */
  function ResolveExtends(fs: Files, baseDir: string, ext: ExtendsRef, env: Environment, depth: nat): Result
    decreases MAX_DEPTH + 1 - depth
  {
    if depth > MAX_DEPTH then Err(TooDeep)
    else
      var path := fs.join(baseDir, ext.file);
      match fs.parse(path, env)
      case None => Err(Unreadable(path))
      case Some(cf) =>
        if ext.service !in cf.services then Err(NoService(path, ext.service))
        else
          var svc := cf.services[ext.service];
          if svc.extends_.None? then Ok(svc)
          else
            match ResolveExtends(fs, fs.dir(path), svc.extends_.value, env, depth + 1)
            case Err(failure) => Err(failure)
            case Ok(parent) => Ok(MergeService(parent, svc).(extends_ := None))
  }

  /** The services that a reference leads to, each one extending the next, and the last one
      extending none. */
  ghost predicate IsChain(fs: Files, baseDir: string, ext: ExtendsRef, env: Environment, chain: seq<Svc>)
    decreases |chain|
  {
    var path := fs.join(baseDir, ext.file);
    var parsed := fs.parse(path, env);
    && chain != [] && parsed.Some? && ext.service in parsed.value.services
    && chain[0] == parsed.value.services[ext.service]
    && if chain[0].extends_.None? then |chain| == 1
       else IsChain(fs, fs.dir(path), chain[0].extends_.value, env, chain[1..])
  }

  function Reversed<T>(s: seq<T>): (r: seq<T>)
    ensures |r| == |s|
  {
    if s == [] then [] else Reversed(s[1..]) + [s[0]]
  }

  /** Resolving a reference succeeds exactly when its chain of services ends within eleven
      files, all of them readable and all services there, and then returns the merge of that
      chain from the most distant ancestor on. */
  lemma ResolvesIff(fs: Files, baseDir: string, ext: ExtendsRef, env: Environment, depth: nat, svc: Svc)
    requires depth <= 10
    ensures ResolveExtends(fs, baseDir, ext, env, depth) == Ok(svc) <==>
            exists chain :: IsChain(fs, baseDir, ext, env, chain) && |chain| + depth <= 11 &&
                            svc == Layered(Reversed(chain))
  {
    if ResolveExtends(fs, baseDir, ext, env, depth) == Ok(svc) {
      var chain := ChainOf(fs, baseDir, ext, env, depth);
    }
    if chain :| IsChain(fs, baseDir, ext, env, chain) && |chain| + depth <= 11 &&
                svc == Layered(Reversed(chain)) {
      ChainResolves(fs, baseDir, ext, env, depth, chain);
    }
  }

  lemma {:induction false} ReversedLayers(chain: seq<Svc>)
    requires chain != []
    ensures Layered(Reversed(chain)) ==
            if |chain| == 1 then chain[0] else MergeService(Layered(Reversed(chain[1..])), chain[0])
    ensures Layered(Reversed(chain)).extends_ == chain[|chain| - 1].extends_
  {
    LayeredMore(Reversed(chain[1..]), chain[0]);
    if |chain| > 1 {
      ReversedLayers(chain[1..]);
    }
  }

  lemma {:induction false} ChainOf(fs: Files, baseDir: string, ext: ExtendsRef, env: Environment, depth: nat)
    returns (chain: seq<Svc>)
    requires ResolveExtends(fs, baseDir, ext, env, depth).Ok?
    ensures IsChain(fs, baseDir, ext, env, chain) && |chain| + depth <= MAX_DEPTH + 1
    ensures ResolveExtends(fs, baseDir, ext, env, depth).svc == Layered(Reversed(chain))
    decreases MAX_DEPTH + 1 - depth
  {
    var path := fs.join(baseDir, ext.file);
    var svc := fs.parse(path, env).value.services[ext.service];
    if svc.extends_.None? {
      chain := [svc];
    } else {
      var rest := ChainOf(fs, fs.dir(path), svc.extends_.value, env, depth + 1);
      chain := [svc] + rest;
      assert chain[1..] == rest;
      LastEnds(fs, fs.dir(path), svc.extends_.value, env, rest);
    }
    ReversedLayers(chain);
  }

  lemma {:induction false} LastEnds(fs: Files, baseDir: string, ext: ExtendsRef, env: Environment, chain: seq<Svc>)
    requires IsChain(fs, baseDir, ext, env, chain)
    ensures chain[|chain| - 1].extends_.None?
    decreases |chain|
  {
    if chain[0].extends_.Some? {
      LastEnds(fs, fs.dir(fs.join(baseDir, ext.file)), chain[0].extends_.value, env, chain[1..]);
    }
  }

  lemma {:induction false} ChainResolves(
    fs: Files, baseDir: string, ext: ExtendsRef, env: Environment, depth: nat, chain: seq<Svc>)
    requires IsChain(fs, baseDir, ext, env, chain) && |chain| + depth <= MAX_DEPTH + 1
    ensures ResolveExtends(fs, baseDir, ext, env, depth) == Ok(Layered(Reversed(chain)))
    decreases |chain|
  {
    ReversedLayers(chain);
    if chain[0].extends_.Some? {
      var path := fs.join(baseDir, ext.file);
      ChainResolves(fs, fs.dir(path), chain[0].extends_.value, env, depth + 1, chain[1..]);
      LastEnds(fs, baseDir, ext, env, chain);
    }
  }

  // ----- how resolving fails -----

  /** The services lead from the first reference to the second, each extending the next. */
  ghost predicate LeadsOn(fs: Files, baseDir: string, ext: ExtendsRef, env: Environment, chain: seq<Svc>,
                          dir: string, last: ExtendsRef)
    decreases |chain|
  {
    if chain == [] then dir == baseDir && last == ext
    else
      var path := fs.join(baseDir, ext.file);
      var parsed := fs.parse(path, env);
      && parsed.Some? && ext.service in parsed.value.services
      && chain[0] == parsed.value.services[ext.service] && chain[0].extends_.Some?
      && LeadsOn(fs, fs.dir(path), chain[0].extends_.value, env, chain[1..], dir, last)
  }

  /** After so many services a reference fails: it is one too many, or its file is unreadable, or
      has no such service. */
  ghost predicate FailsAt(fs: Files, dir: string, ext: ExtendsRef, env: Environment, n: nat, failure: Failure) {
    var path := fs.join(dir, ext.file);
    match failure
    case TooDeep => n == 11
    case Unreadable(p) => n <= 10 && p == path && fs.parse(path, env).None?
    case NoService(p, name) =>
      && n <= 10 && p == path && name == ext.service
      && fs.parse(path, env).Some? && ext.service !in fs.parse(path, env).value.services
  }

  ghost predicate Fails(fs: Files, baseDir: string, ext: ExtendsRef, env: Environment, depth: nat, failure: Failure) {
    exists chain, dir, last ::
      LeadsOn(fs, baseDir, ext, env, chain, dir, last) && FailsAt(fs, dir, last, env, |chain| + depth, failure)
  }

  lemma FailsLater(fs: Files, baseDir: string, ext: ExtendsRef, env: Environment, depth: nat, failure: Failure,
                   svc: Svc)
    requires var path := fs.join(baseDir, ext.file);
             && depth <= 10 && fs.parse(path, env).Some? && ext.service in fs.parse(path, env).value.services
             && svc == fs.parse(path, env).value.services[ext.service]
    ensures Fails(fs, baseDir, ext, env, depth, failure) <==>
            svc.extends_.Some? &&
            Fails(fs, fs.dir(fs.join(baseDir, ext.file)), svc.extends_.value, env, depth + 1, failure)
  {
    if chain, dir, last :|
        LeadsOn(fs, baseDir, ext, env, chain, dir, last) && FailsAt(fs, dir, last, env, |chain| + depth, failure) {
      assert chain != [] && chain[0] == svc;
      var shorter := chain[1..];
      assert LeadsOn(fs, fs.dir(fs.join(baseDir, ext.file)), svc.extends_.value, env, shorter, dir, last);
      assert |shorter| + (depth + 1) == |chain| + depth;
      assert FailsAt(fs, dir, last, env, |shorter| + (depth + 1), failure);
    }
    if svc.extends_.Some? {
      var down := fs.dir(fs.join(baseDir, ext.file));
      if Fails(fs, down, svc.extends_.value, env, depth + 1, failure) {
        var chain, dir, last :| LeadsOn(fs, down, svc.extends_.value, env, chain, dir, last)
                                && FailsAt(fs, dir, last, env, |chain| + (depth + 1), failure);
        var longer := [svc] + chain;
        assert longer[1..] == chain && |longer| + depth == |chain| + (depth + 1);
        assert LeadsOn(fs, baseDir, ext, env, longer, dir, last);
        assert FailsAt(fs, dir, last, env, |longer| + depth, failure);
      }
    }
  }

  lemma FailsHere(fs: Files, baseDir: string, ext: ExtendsRef, env: Environment, depth: nat, failure: Failure)
    requires depth <= 11
    requires depth == 11 || fs.parse(fs.join(baseDir, ext.file), env).None?
             || ext.service !in fs.parse(fs.join(baseDir, ext.file), env).value.services
    ensures Fails(fs, baseDir, ext, env, depth, failure) <==> FailsAt(fs, baseDir, ext, env, depth, failure)
  {
    if FailsAt(fs, baseDir, ext, env, depth, failure) {
      assert LeadsOn(fs, baseDir, ext, env, [], baseDir, ext);
      var none: seq<Svc> := [];
      assert FailsAt(fs, baseDir, ext, env, |none| + depth, failure);
    }
  }

  /** Resolving fails exactly as the chain of services does, and tells where. */
  lemma {:induction false} FailsIff(
    fs: Files, baseDir: string, ext: ExtendsRef, env: Environment, depth: nat, failure: Failure)
    requires depth <= 11
    ensures ResolveExtends(fs, baseDir, ext, env, depth) == Err(failure) <==>
            Fails(fs, baseDir, ext, env, depth, failure)
    decreases 11 - depth
  {
    var path := fs.join(baseDir, ext.file);
    if depth == 11 || fs.parse(path, env).None? || ext.service !in fs.parse(path, env).value.services {
      FailsHere(fs, baseDir, ext, env, depth, failure);
    } else {
      var svc := fs.parse(path, env).value.services[ext.service];
      FailsLater(fs, baseDir, ext, env, depth, failure, svc);
      if svc.extends_.Some? {
        FailsIff(fs, fs.dir(path), svc.extends_.value, env, depth + 1, failure);
      }
    }
  }

  // ----- the extends pass of Parse -----

  predicate Extendable(fs: Files, dir: string, svc: Svc, env: Environment) {
    svc.extends_.Some? ==> ResolveExtends(fs, dir, svc.extends_.value, env, 0).Ok?
  }

  function Extended(fs: Files, dir: string, svc: Svc, env: Environment): Svc
    requires Extendable(fs, dir, svc, env)
  {
    if svc.extends_.None? then svc
    else MergeService(ResolveExtends(fs, dir, svc.extends_.value, env, 0).svc, svc).(extends_ := None)
  }

  /** No extends is left pending: a service becomes the layering of its ancestors and itself. */
  lemma ExtendedIsLayered(fs: Files, dir: string, svc: Svc, env: Environment)
    requires svc.extends_.Some? && Extendable(fs, dir, svc, env)
    ensures Extended(fs, dir, svc, env).extends_.None?
    ensures exists chain :: IsChain(fs, dir, svc.extends_.value, env, chain) &&
                            Extended(fs, dir, svc, env) == Layered(Reversed(chain) + [svc])
  {
    var chain := ChainOf(fs, dir, svc.extends_.value, env, 0);
    LastEnds(fs, dir, svc.extends_.value, env, chain);
    ReversedLayers(chain);
    LayeredMore(Reversed(chain), svc);
  }

  /** The extends pass of Parse, over the services in any order: it fails exactly when one of them
      does not resolve, and leaves none pending. */
  method ExtendServices(fs: Files, dir: string, services: map<string, Svc>, env: Environment)
    returns (r: Option<map<string, Svc>>)
    ensures r.Some? <==> forall n :: n in services ==> Extendable(fs, dir, services[n], env)
    ensures r.Some? ==> r.value == map n | n in services :: Extended(fs, dir, services[n], env)
    ensures r.Some? ==> forall n :: n in r.value ==> r.value[n].extends_.None?
  {
    var merged := services;
    var rest := services.Keys;
    while rest != {}
      invariant rest <= services.Keys && merged.Keys == services.Keys
      invariant forall n :: n in services && n !in rest ==>
                  Extendable(fs, dir, services[n], env) && merged[n] == Extended(fs, dir, services[n], env)
      invariant forall n :: n in rest ==> merged[n] == services[n]
      decreases rest
    {
      var name :| name in rest;
      rest := rest - {name};
      var svc := merged[name];
      if svc.extends_.Some? {
        var resolved := ResolveExtends(fs, dir, svc.extends_.value, env, 0);
        if resolved.Err? {
          return None;
        }
        var result := MergeService(resolved.svc, svc);
        merged := merged[name := result.(extends_ := None)];
      }
    }
    r := Some(merged);
  }
}
