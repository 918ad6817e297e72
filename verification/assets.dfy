/** The asset classifier: which asset type an extension string belongs to. The extension table
    is defined outside the model, so it is a parameter. */
module Assets {
  import Search

  /** Asset types, in declaration order; the table iterates its keys in this order. */
  datatype Type = None | Model | Image | Audio | Video | Script

  function Rank(t: Type): nat {
    match t
    case None => 0
    case Model => 1
    case Image => 2
    case Audio => 3
    case Video => 4
    case Script => 5
  }

  /** The keys in ascending order, the iteration order of an ordered map keyed by `Type`. */
  const KeyOrder: seq<Type> := [None, Model, Image, Audio, Video, Script]

  lemma KeyOrderRanks(t: Type)
    ensures Rank(t) < |KeyOrder| && KeyOrder[Rank(t)] == t
  {
  }

  /** The type of the first table entry, in key order, whose extension list contains `str`
      as an exact element; `None` when no list contains it. Only reads the table. */
  function GetExt(exts: map<Type, seq<string>>, str: string): (r: Type)
    ensures r != None ==> r in exts && str in exts[r]
    ensures r != None ==> forall t :: t in exts && Rank(t) < Rank(r) ==> str !in exts[t]
    ensures r == None <==> (None in exts && str in exts[None]) || forall t :: t in exts && t != None ==> str !in exts[t]
  {
    var f := Search.FirstIndex(KeyOrder, (t: Type) => t in exts && str in exts[t]);
    if f.Some? then
      KeyOrder[f.value]
    else
      assert forall t :: t in exts ==> str !in exts[t] by {
        forall t | t in exts
          ensures str !in exts[t]
        {
          KeyOrderRanks(t);
        }
      }
      None
  }

  /** When several types list the same string, the one first in key order wins. */
  lemma FirstListedWins(exts: map<Type, seq<string>>, str: string, a: Type, b: Type)
    requires a in exts && str in exts[a]
    requires b in exts && str in exts[b]
    requires Rank(a) < Rank(b)
    ensures GetExt(exts, str) != b
  {
  }

  /** Matching is element equality: no case folding, no suffix matching. */
  lemma ExactMatchOnly()
    ensures GetExt(map[Image := [".png"]], ".png") == Image
    ensures GetExt(map[Image := [".png"]], ".PNG") == None
    ensures GetExt(map[Image := [".png"]], "photo.png") == None
  {
    var exts := map[Image := [".png"]];
    assert ".PNG" != ".png" by {
      assert ".PNG"[1] != ".png"[1];
    }
    assert "photo.png" != ".png" by {
      assert |"photo.png"| != |".png"|;
    }
  }
}
