/** The directory in which a model is cached: `Path(cache_dir) / model_name.replace("/", "--")`. */
module CachePath {

  /** `name.replace("/", "--")` */
  function SafeName(name: string): string {
    if name == "" then ""
    else (if name[0] == '/' then "--" else [name[0]]) + SafeName(name[1..])
  }

  /** `safe.replace("--", "/")`, leftmost occurrence first. */
  function Restore(safe: string): string
    decreases |safe|
  {
    if |safe| >= 2 && safe[0] == '-' && safe[1] == '-' then "/" + Restore(safe[2..])
    else if safe == "" then ""
    else [safe[0]] + Restore(safe[1..])
  }

  /** No "--" and no "-/" in the name. */
  predicate Unambiguous(name: string) {
    forall i :: 0 <= i < |name| - 1 && name[i] == '-' ==> name[i + 1] != '-' && name[i + 1] != '/'
  }

  lemma {:induction false} NoSlash(name: string)
    ensures '/' !in SafeName(name)
  {
    if name != "" {
      NoSlash(name[1..]);
    }
  }

  lemma UnambiguousTail(name: string)
    requires name != ""
    ensures Unambiguous(name) <==>
              Unambiguous(name[1..]) && !(|name| >= 2 && name[0] == '-' && (name[1] == '-' || name[1] == '/'))
  {
    if Unambiguous(name[1..]) && !(|name| >= 2 && name[0] == '-' && (name[1] == '-' || name[1] == '/')) {
      forall i | 0 <= i < |name| - 1 && name[i] == '-' ensures name[i + 1] != '-' && name[i + 1] != '/' {
        if i > 0 {
          assert name[1..][i - 1] == name[i] && name[1..][i] == name[i + 1];
        }
      }
    }
    if Unambiguous(name) {
      forall i | 0 <= i < |name[1..]| - 1 && name[1..][i] == '-'
        ensures name[1..][i + 1] != '-' && name[1..][i + 1] != '/'
      {
        assert name[1..][i] == name[i + 1] && name[1..][i + 1] == name[i + 2];
      }
    }
  }

  /** Restoring recovers the name exactly when it contains neither "--" nor "-/". */
  lemma {:induction false} RestoreSafeName(name: string)
    ensures Restore(SafeName(name)) == name <==> Unambiguous(name)
  {
    if name != "" {
      var safe, rest := SafeName(name), SafeName(name[1..]);
      RestoreSafeName(name[1..]);
      UnambiguousTail(name);
      assert name == [name[0]] + name[1..];
      if name[0] == '/' {
        assert safe[2..] == rest;
        assert Restore(safe) == "/" + Restore(rest);
        assert Restore(safe)[1..] == Restore(rest);
      } else {
        assert safe[1..] == rest;
        assert |name| >= 2 && (name[1] == '-' || name[1] == '/') <==> rest != "" && rest[0] == '-' by {
          StartsWithDash(name[1..]);
        }
        if name[0] == '-' && rest != "" && rest[0] == '-' {
          assert Restore(safe)[0] == '/';
        } else {
          assert Restore(safe) == [name[0]] + Restore(rest);
          assert Restore(safe)[1..] == Restore(rest);
        }
      }
    }
  }

  lemma StartsWithDash(name: string)
    ensures SafeName(name) != "" && SafeName(name)[0] == '-' <==> name != "" && (name[0] == '-' || name[0] == '/')
  {
  }

  /** The parts of the joined path; pathlib drops an empty component and ".". */
  function Path(cacheDir: seq<string>, name: string): seq<string> {
    var safe := SafeName(name);
    cacheDir + if safe == "" || safe == "." then [] else [safe]
  }

  /** Unambiguous names share a directory only when they are equal, or when both name the cache directory itself. */
  lemma DirectoriesAreDistinct(cacheDir: seq<string>, a: string, b: string)
    requires Unambiguous(a) && Unambiguous(b)
    ensures Path(cacheDir, a) == Path(cacheDir, b) <==> a == b || (a in {"", "."} && b in {"", "."})
  {
    RestoreSafeName(a);
    RestoreSafeName(b);
    OnlyDotIsDot(a);
    OnlyDotIsDot(b);
    if Path(cacheDir, a) == Path(cacheDir, b) && !(a in {"", "."} && b in {"", "."}) {
      assert Path(cacheDir, a)[|cacheDir|..] == Path(cacheDir, b)[|cacheDir|..];
      assert SafeName(a) == SafeName(b);
    }
  }

  lemma {:induction false} SafeNameGrows(name: string)
    ensures |SafeName(name)| >= |name|
  {
    if name != "" {
      SafeNameGrows(name[1..]);
    }
  }

  lemma OnlyDotIsDot(name: string)
    ensures SafeName(name) == "" <==> name == ""
    ensures SafeName(name) == "." <==> name == "."
  {
    SafeNameGrows(name);
    if |name| == 1 {
      assert name[1..] == "";
    }
  }

  /** A model's directory is the cache directory or an entry directly in it, whatever the name; the former only for the
      two names that name nothing. */
  lemma PathIsInCache(cacheDir: seq<string>, name: string)
    ensures cacheDir <= Path(cacheDir, name)
    ensures |Path(cacheDir, name)| == |cacheDir| + if name in {"", "."} then 0 else 1
    ensures name !in {"", "."} ==> '/' !in Path(cacheDir, name)[|cacheDir|]
                                   && (Restore(Path(cacheDir, name)[|cacheDir|]) == name <==> Unambiguous(name))
  {
    OnlyDotIsDot(name);
    NoSlash(name);
    RestoreSafeName(name);
  }

  /** Every directory name is the encoding of exactly one unambiguous name, its restoration. */
  lemma {:induction false} RestoreIsCanonical(safe: string)
    requires '/' !in safe
    ensures SafeName(Restore(safe)) == safe
    ensures Unambiguous(Restore(safe))
    decreases |safe|
  {
    if safe != "" {
      var slash := |safe| >= 2 && safe[0] == '-' && safe[1] == '-';
      var rest := if slash then safe[2..] else safe[1..];
      var name := Restore(safe);
      RestoreIsCanonical(rest);
      assert name == [if slash then '/' else safe[0]] + Restore(rest);
      assert name[1..] == Restore(rest);
      UnambiguousTail(name);
      StartsWithDash(name[1..]);
      if slash {
        assert safe == "--" + rest;
      } else {
        assert safe == [safe[0]] + rest;
      }
    }
  }

  /** So the names that share a directory with `name` are those with the same encoding, and one of them, and
      only one, is unambiguous; every ambiguous name shares its directory with that other one. */
  lemma AmbiguousNamesCollide(cacheDir: seq<string>, name: string)
    ensures var other := Restore(SafeName(name));
            && Unambiguous(other) && Path(cacheDir, other) == Path(cacheDir, name)
            && (other != name <==> !Unambiguous(name))
            && forall n :: Unambiguous(n) && SafeName(n) == SafeName(name) ==> n == other
  {
    NoSlash(name);
    RestoreIsCanonical(SafeName(name));
    RestoreSafeName(name);
    forall n | Unambiguous(n) && SafeName(n) == SafeName(name) ensures n == Restore(SafeName(name)) {
      RestoreSafeName(n);
    }
  }
}
