/** Repository tools provisioned for a worker: the digest of its pin files, and the cache kept under it. */
module ToolCache {
  import opened Prelude
  import opened Texts

  /** Bytes are characters below 256 here; a pin file is a name and its contents. */
  type Pins = map<string, string>

  datatype File = File(name: string, content: string)

  const PIN_FILES := ["mise.toml", "mise.lock", "go.mod"]

  /** The pin files that exist, in their fixed order. */
  function Present(names: seq<string>, pins: Pins): seq<File>
    decreases |names|
  {
    if names == [] then []
    else Present(Front(names), pins) + (if Last(names) in pins then [File(Last(names), pins[Last(names)])] else [])
  }

  function Piece(f: File): string { f.name + "\0" + Itoa(|f.content|) + "\0" + f.content }

  /** The bytes hashed for these files. */
  function Preimage(files: seq<File>): string
    decreases |files|
  {
    if files == [] then "" else Preimage(Front(files)) + Piece(Last(files))
  }

  // ---- Reading the bytes back ------------------------------------------------------------------

  function Parse(s: string): Option<seq<File>>
    decreases |s|
  {
    if s == "" then Some([])
    else
      var i := IndexOf(s, '\0');
      if i == |s| then None
      else
        var t := s[i + 1..];
        var j := IndexOf(t, '\0');
        if j == |t| || Atoi(t[..j]).None? || Atoi(t[..j]).value < 0 then None
        else
          var n := Atoi(t[..j]).value;
          var u := t[j + 1..];
          if n > |u| then None
          else
            var rest := Parse(u[n..]);
            if rest.None? then None else Some([File(s[..i], u[..n])] + rest.value)
  }

  predicate Readable(f: File) { '\0' !in f.name && |f.content| <= MAX_INT }

  /** What parsing makes of a name, a length, and what follows. */
  lemma ParseOnce(name: string, n: string, u: string, length: nat)
    requires '\0' !in name && '\0' !in n && Atoi(n) == Some(length) && length <= |u|
    ensures Parse(name + "\0" + (n + "\0" + u))
            == (var r := Parse(u[length..]); if r.None? then None else Some([File(name, u[..length])] + r.value))
  {
    hide Atoi;
    var t := n + "\0" + u;
    var s := name + "\0" + t;
    IndexAfter(name, '\0', t);
    assert s[..|name|] == name && s[|name| + 1..] == t;
    IndexAfter(n, '\0', u);
    assert t[..|n|] == n && t[|n| + 1..] == u;
    hide IndexOf;
  }

  lemma PieceReadsBack(f: File, rest: string)
    requires Readable(f)
    ensures Parse(Piece(f) + rest) == (var r := Parse(rest); if r.None? then None else Some([f] + r.value))
  {
    hide Parse, Atoi, Value;
    var n, u := Itoa(|f.content|), f.content + rest;
    assert Piece(f) + rest == f.name + "\0" + (n + "\0" + u);
    assert !IsDigit('\0');
    AtoiOfItoa(|f.content|);
    assert u[..|f.content|] == f.content && u[|f.content|..] == rest;
    ParseOnce(f.name, n, u, |f.content|);
  }

  lemma {:induction false} PreimageReadsOn(files: seq<File>, rest: string)
    requires forall f <- files :: Readable(f)
    ensures Parse(Preimage(files) + rest) == (var r := Parse(rest); if r.None? then None else Some(files + r.value))
    decreases |files|
  {
    hide Parse, Piece;
    if files == [] {
      assert "" + rest == rest;
      assert forall x: seq<File> :: files + x == x;
    } else {
      var f := Last(files);
      assert Preimage(files) + rest == Preimage(Front(files)) + (Piece(f) + rest);
      PreimageReadsOn(Front(files), Piece(f) + rest);
      PieceReadsBack(f, rest);
      assert forall x: seq<File> :: Front(files) + ([f] + x) == files + x;
    }
  }

  /** The hashed bytes say exactly which files exist and what is in them. */
  lemma PreimageReadsBack(files: seq<File>)
    requires forall f <- files :: Readable(f)
    ensures Parse(Preimage(files)) == Some(files)
  {
    PreimageReadsOn(files, "");
    assert Preimage(files) + "" == Preimage(files) && files + [] == files;
  }

  lemma {:induction false} PresentIs(names: seq<string>, pins: Pins, f: File)
    ensures f in Present(names, pins) <==> f.name in names && f.name in pins && pins[f.name] == f.content
    decreases |names|
  {
    if names != [] {
      PresentIs(Front(names), pins, f);
      assert names == Front(names) + [Last(names)];
    }
  }

  predicate AllReadable(pins: Pins) { forall name <- pins :: |pins[name]| <= MAX_INT }

  /** Different pin files never hash the same bytes. */
  lemma PreimageIsInjective(a: Pins, b: Pins)
    requires AllReadable(a) && AllReadable(b)
    requires Preimage(Present(PIN_FILES, a)) == Preimage(Present(PIN_FILES, b))
    ensures forall name <- PIN_FILES :: (name in a <==> name in b) && (name in a ==> a[name] == b[name])
  {
    PresentIsReadable(a);
    PresentIsReadable(b);
    PreimageReadsBack(Present(PIN_FILES, a));
    PreimageReadsBack(Present(PIN_FILES, b));
    forall name <- PIN_FILES ensures (name in a <==> name in b) && (name in a ==> a[name] == b[name]) {
      if name in a {
        PresentIs(PIN_FILES, a, File(name, a[name]));
        PresentIs(PIN_FILES, b, File(name, a[name]));
      }
      if name in b {
        PresentIs(PIN_FILES, a, File(name, b[name]));
        PresentIs(PIN_FILES, b, File(name, b[name]));
      }
    }
  }

  lemma PresentIsReadable(pins: Pins)
    requires AllReadable(pins)
    ensures forall f <- Present(PIN_FILES, pins) :: Readable(f)
  {
    forall f <- Present(PIN_FILES, pins) ensures Readable(f) {
      PresentIs(PIN_FILES, pins, f);
    }
  }

  // ---- The cache ---------------------------------------------------------------------------------

  datatype Key = Key(repository: string, digest: string)

  datatype Provisioning = Provisioning(lockDigest: string, tools: seq<string>)

  datatype Outcome =
    | Nothing
    | NotReady(reason: string)
    | Failed(reason: string)
    | Provisioned(p: Provisioning, hit: bool)

  /** The first 32 hexadecimal digits of the hash. */
  function Short(s: string): string { if |s| < 32 then s else s[..32] }

  class Cache {
    const hash: string -> string
    var markers: map<Key, Provisioning>            // caches with a readable marker
    ghost var filled: map<Key, Pins>               // the pin files each such cache was filled from
    ghost var faults: nat                          // reads, builds and writes that failed

    ghost function DigestOf(pins: Pins): string { Short(hash(Preimage(Present(PIN_FILES, pins)))) }

    /** Every marked cache was filled from files with the digest it is kept under. */
    ghost predicate Valid()
      reads `markers, `filled
    {
      forall k <- markers :: k in filled && AllReadable(filled[k]) && DigestOf(filled[k]) == k.digest
    }

    method Fails() returns (fails: bool)
      modifies `faults
      ensures faults == old(faults) + (if fails then 1 else 0)
    {
      fails := *;
      if fails {
        faults := faults + 1;
      }
    }

    /** Feed the files that exist to the running hash, each with its name and length. */
    method PinDigest(pins: Pins) returns (r: Option<string>)
      modifies `faults
      ensures r.Some? ==> r.value == DigestOf(pins) && faults == old(faults)
      ensures r.None? ==> faults > old(faults)
      ensures r.Some? ==> var full := hash(Preimage(Present(PIN_FILES, pins)));
                          r.value <= full && |r.value| == Min(32, |full|)
    {
      hide Present, Preimage, Piece;
      var fed := "";
      NothingFed(pins);
      for i := 0 to |PIN_FILES|
        invariant fed == Preimage(Present(PIN_FILES[..i], pins)) && faults == old(faults)
      {
        var name := PIN_FILES[i];
        FeedMore(pins, i);
        if name in pins {
          var fails := Fails();
          if fails {
            return None;
          }
          fed := fed + (name + "\0" + Itoa(|pins[name]|) + "\0");
          fed := fed + pins[name];
        }
      }
      assert PIN_FILES[..|PIN_FILES|] == PIN_FILES;
      r := Some(Short(hash(fed)));
    }

    lemma NothingFed(pins: Pins)
      ensures Preimage(Present(PIN_FILES[..0], pins)) == ""
    {
    }

    lemma FeedMore(pins: Pins, i: nat)
      requires i < |PIN_FILES|
      ensures var name := PIN_FILES[i];
              var before := Preimage(Present(PIN_FILES[..i], pins));
              Preimage(Present(PIN_FILES[..i + 1], pins))
              == if name in pins then before + (name + "\0" + Itoa(|pins[name]|) + "\0") + pins[name] else before
    {
      var name, before := PIN_FILES[i], Present(PIN_FILES[..i], pins);
      assert Front(PIN_FILES[..i + 1]) == PIN_FILES[..i] && Last(PIN_FILES[..i + 1]) == name;
      if name in pins {
        var f := File(name, pins[name]);
        assert Front(before + [f]) == before && Last(before + [f]) == f;
        assert Preimage(before) + Piece(f) == Preimage(before) + (name + "\0" + Itoa(|pins[name]|) + "\0") + pins[name];
      } else {
        assert before + [] == before;
      }
    }

    /** A readable marker of the same digest is kept under the key. */
    ghost predicate Marked(repository: string, pins: Pins, marked: map<Key, Provisioning>) {
      var key := Key(repository, DigestOf(pins));
      key in marked && marked[key].lockDigest == key.digest
    }

    /**
     Provision the tools a workspace pins. A cache is reused only under the digest of the same files; a
     failed build leaves no marker behind.
     */
    method ProvisionTools(repository: string, pins: Pins) returns (r: Outcome)
      requires Valid() && AllReadable(pins)
      modifies this
      ensures Valid()
      ensures r.Nothing? <==> "mise.toml" !in pins
      ensures r.Provisioned? ==> "mise.lock" in pins
      ensures !r.Nothing? && !r.Provisioned? ==> faults > old(faults) || "mise.lock" !in pins
      ensures r.Provisioned? ==> (r.hit <==> Marked(repository, pins, old(markers)))
      ensures r.Provisioned? && r.hit ==> markers == old(markers) && Key(repository, DigestOf(pins)) in old(markers)
                                          && old(markers)[Key(repository, DigestOf(pins))] == r.p
      ensures r.Provisioned? ==> r.p.lockDigest == DigestOf(pins)
      ensures r.Provisioned? && !r.hit ==> markers == old(markers)[Key(repository, DigestOf(pins)) := r.p]
                                           && filled == old(filled)[Key(repository, DigestOf(pins)) := pins]
      ensures !r.Provisioned? ==> markers == old(markers) || markers == old(markers) - {Key(repository, DigestOf(pins))}
    {
      hide Present, Preimage, AllReadable, Short;
      if "mise.toml" !in pins {
        return Nothing;
      }
      if "mise.lock" !in pins {
        return NotReady("mise.toml without mise.lock");
      }
      var digest := PinDigest(pins);
      if digest.None? {
        return Failed("read pin files");
      }
      var key := Key(repository, digest.value);
      if key in markers && markers[key].lockDigest == digest.value {
        return Provisioned(markers[key], true);
      }
      markers := markers - {key};
      var fails := Fails();
      if fails {
        return NotReady("repository tools could not be installed");
      }
      var tools := InstalledTools();
      fails := Fails();
      if fails {
        return Failed("record tool cache");
      }
      markers := markers[key := Provisioning(digest.value, tools)];
      filled := filled[key := pins];
      r := Provisioned(markers[key], false);
    }

    method InstalledTools() returns (tools: seq<string>)
    {
      tools := *;
    }

    /** A cache hit means the very same pin files, or else two different byte strings with one digest. */
    lemma HitMeansSameFiles(repository: string, pins: Pins)
      requires Valid() && AllReadable(pins) && Key(repository, DigestOf(pins)) in markers
      ensures var source := filled[Key(repository, DigestOf(pins))];
              var x, y := Preimage(Present(PIN_FILES, source)), Preimage(Present(PIN_FILES, pins));
              || (x != y && Short(hash(x)) == Short(hash(y)))
              || forall name <- {"mise.toml", "mise.lock", "go.mod"} ::
                   (name in source <==> name in pins) && (name in source ==> source[name] == pins[name])
    {
      var source := filled[Key(repository, DigestOf(pins))];
      if Preimage(Present(PIN_FILES, source)) == Preimage(Present(PIN_FILES, pins)) {
        PreimageIsInjective(source, pins);
        assert PIN_FILES[0] == "mise.toml" && PIN_FILES[1] == "mise.lock" && PIN_FILES[2] == "go.mod";
      }
    }
  }
}
