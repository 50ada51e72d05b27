/**
 * get_sources: the transfer sources of a machine for the run's backup type,
 * each qualified with '<IP>:' unless the machine is local.
 */
module Sources {
  import opened Settings

  const LOCAL_ADDRESSES: seq<string> := ["local", "localhost", "127.0.0.1"]

  predicate IsLocal(ip: string)
  {
    ip in LOCAL_ADDRESSES
  }

  /** One configured source as rsync is to receive it. */
  function Qualify(ip: string, source: string): string
  {
    if IsLocal(ip) then source else ip + ":" + source
  }

  /** The resolved list, element by element. */
  function Resolved(ip: string, sources: seq<string>): seq<string>
  {
    seq(|sources|, i requires 0 <= i < |sources| => Qualify(ip, sources[i]))
  }

  /** get_sources(machine) with _type == t. */
  method GetSources(m: Machine, t: BackupType) returns (sources: seq<string>)
    ensures |sources| == |SourcesFor(m, t)|
    ensures IsLocal(m.ip) ==> sources == SourcesFor(m, t)
    ensures !IsLocal(m.ip) ==>
      forall i :: 0 <= i < |sources| ==> sources[i] == m.ip + ":" + SourcesFor(m, t)[i]
    ensures sources == Resolved(m.ip, SourcesFor(m, t))
  {
    var configured := SourcesFor(m, t);
    sources := [];
    var i := 0;
    while i < |configured|
      invariant 0 <= i <= |configured|
      invariant sources == Resolved(m.ip, configured[..i])
    {
      if m.ip in LOCAL_ADDRESSES {
        sources := sources + [configured[i]];
      } else {
        sources := sources + [m.ip + ":" + configured[i]];
      }
      assert configured[..i + 1][..i] == configured[..i];
      i := i + 1;
    }
    assert configured[..i] == configured;
  }

  /** A remote source can be read back from its qualified form. */
  lemma QualifyRecoverable(ip: string, source: string)
    requires !IsLocal(ip)
    ensures |Qualify(ip, source)| == |ip| + 1 + |source|
    ensures Qualify(ip, source)[..|ip|] == ip
    ensures Qualify(ip, source)[|ip|] == ':'
    ensures Qualify(ip, source)[|ip| + 1..] == source
  {
    var r := ip + ":" + source;
    assert r[..|ip|] == ip;
    assert r[|ip| + 1..] == source;
  }

  /** Resolution keeps distinct sources distinct, so no configured source is merged away. */
  lemma ResolvedInjective(ip: string, sources: seq<string>, i: int, j: int)
    requires 0 <= i < |sources| && 0 <= j < |sources|
    ensures Resolved(ip, sources)[i] == Resolved(ip, sources)[j] <==> sources[i] == sources[j]
  {
    if !IsLocal(ip) && Resolved(ip, sources)[i] == Resolved(ip, sources)[j] {
      QualifyRecoverable(ip, sources[i]);
      QualifyRecoverable(ip, sources[j]);
    }
  }

  /** The two documented resolutions: local passes through, an address is prefixed. */
  lemma ResolutionExamples()
    ensures Resolved("local", ["/a/b"]) == ["/a/b"]
    ensures Resolved("10.0.0.5", ["/a/b"]) == ["10.0.0.5:/a/b"]
  {
    assert "10.0.0.5"[0] != "local"[0] && |"10.0.0.5"| != |"localhost"| && "10.0.0.5"[1] != "127.0.0.1"[1];
    assert !IsLocal("10.0.0.5");
    assert Qualify("10.0.0.5", "/a/b") == "10.0.0.5:/a/b";
    assert Resolved("10.0.0.5", ["/a/b"])[0] == "10.0.0.5:/a/b";
    assert "local" in LOCAL_ADDRESSES;
    assert Resolved("local", ["/a/b"])[0] == "/a/b";
  }
}
