/** Temporary file names and object-storage keys. */
module Naming {
  import opened Js
  import Hex

  /** `prefix.concat(randomBytes(24).toString("hex")).concat(".").concat(ext)`. */
  function TempName(prefix: string, draw: Hex.Random24, ext: string): (r: string)
    ensures |r| == |prefix| + 49 + |ext|
    ensures r[..|prefix|] == prefix
    ensures Hex.IsLowerHex(r[|prefix|..|prefix| + 48])
    ensures r[|prefix| + 48] == '.'
    ensures r[|prefix| + 49..] == ext
  {
    var r := prefix + Hex.Encode(draw) + "." + ext;
    assert r[|prefix|..|prefix| + 48] == Hex.Encode(draw);
    r
  }

  /** Recovers the random bytes from a name made with TempName(prefix, _, ext). */
  function ParseTempName(prefix: string, ext: string, name: string): Option<seq<Hex.uint8>> {
    if |name| != |prefix| + 49 + |ext| || name[..|prefix|] != prefix
       || name[|prefix| + 48] != '.' || name[|prefix| + 49..] != ext
    then None
    else Hex.Decode(name[|prefix|..|prefix| + 48])
  }

  lemma ParseTempNameRoundTrip(prefix: string, draw: Hex.Random24, ext: string)
    ensures ParseTempName(prefix, ext, TempName(prefix, draw, ext)) == Some(draw)
  {
    var r := TempName(prefix, draw, ext);
    assert r[|prefix|..|prefix| + 48] == Hex.Encode(draw);
    Hex.DecodeEncode(draw);
  }

  /** Two temp names with the same prefix are equal only for the same random draw and
      the same extension: distinct draws never collide. */
  lemma TempNameInjective(prefix: string, d1: Hex.Random24, e1: string, d2: Hex.Random24, e2: string)
    requires (d1, e1) != (d2, e2)
    ensures TempName(prefix, d1, e1) != TempName(prefix, d2, e2)
  {
    if TempName(prefix, d1, e1) == TempName(prefix, d2, e2) {
      ParseTempNameRoundTrip(prefix, d1, e1);
      ParseTempNameRoundTrip(prefix, d2, e2);
    }
  }

  /** The object key `${folder}/${id}.${ext}`. */
  function StorageKey(folder: string, id: string, ext: string): (k: string)
    ensures |k| == |folder| + |id| + |ext| + 2
    ensures StartsWith(k, folder + "/") && EndsWith(k, "." + ext)
  {
    var k := folder + "/" + id + "." + ext;
    assert k[..|folder| + 1] == folder + "/";
    assert k[|k| - |ext| - 1..] == "." + ext;
    k
  }

  /** Within one folder, keys of one record differ exactly when their extensions do. */
  lemma StorageKeyInjective(folder: string, id: string, e1: string, e2: string)
    ensures StorageKey(folder, id, e1) == StorageKey(folder, id, e2) <==> e1 == e2
  {
    if StorageKey(folder, id, e1) == StorageKey(folder, id, e2) {
      var n := |folder| + |id| + 2;
      assert StorageKey(folder, id, e1)[n..] == e1;
      assert StorageKey(folder, id, e2)[n..] == e2;
    }
  }
}
