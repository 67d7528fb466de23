/**
 * The static keyword schema: every recognised keyword, its option modifiers
 * and the ordered list of value shapes its value may take.
 */
module MtlSchema {
  import opened Wrappers

  /** `mtlKeyType`: the key identifier the commit switch dispatches on. */
  datatype KeyType =
    | KtKa | KtKd | KtKs | KtTf | KtIllum | KtD | KtNs | KtSharpness | KtNi
    | KtMapKa | KtMapKd | KtMapKs | KtMapNs | KtMapD | KtDisp | KtDecal
    | KtBump | KtMapBump | KtRefl

  /** `mtlValType` (also `mtlOptType`): how many scalars of which type a shape reads. */
  datatype ValType =
    | VtFloat | Vt2Floats | Vt3Floats | VtInt | Vt2Ints | Vt3Ints | VtString | VtStringAndFloat

  /** `mtlOpt`: an option modifier such as `-halo`. */
  datatype Opt = Opt(optName: string, optType: ValType)

  /** `mtlVal`: a value shape; `valName` is the qualifier word, `None` for an unnamed shape. */
  datatype Val = Val(valName: Option<string>, valType: ValType)

  /** `mtlKey`: a keyword with its option and shape arrays and their declared lengths. */
  datatype Key = Key(keyName: string, keyType: KeyType,
                     nrOptions: int, options: seq<Opt>,
                     nrValues: int, values: seq<Val>)

  /** The shapes shared by `Ka`, `Kd`, `Ks` and `Tf` (`kVals`). */
  const KVals: seq<Val> := [Val(Some("xyz"), Vt3Floats), Val(Some("spectral"), VtStringAndFloat), Val(None, Vt3Floats)]

  /** The options of `d` (`dOpts`). */
  const DOpts: Opt := Opt("-halo", VtFloat)

  /** A single unnamed int (`intVal`) or float (`floatVal`). */
  const IntVal: Val := Val(None, VtInt)
  const FloatVal: Val := Val(None, VtFloat)

  /** The value types the lexing switch can read; every other type throws. */
  predicate Lexable(vt: ValType)
  {
    vt == VtFloat || vt == Vt3Floats || vt == VtInt
  }

  /**
   * The buffer the commit switch reads for a key type (`floatData[0..3]`,
   * `floatData[0]` or `intData[0]`); `None` for the key types that fall into
   * its default branch.
   */
  function StoredType(kt: KeyType): Option<ValType>
  {
    match kt
    case KtKa => Some(Vt3Floats)
    case KtKd => Some(Vt3Floats)
    case KtKs => Some(Vt3Floats)
    case KtTf => Some(Vt3Floats)
    case KtIllum => Some(VtInt)
    case KtD => Some(VtFloat)
    case KtNs => Some(VtInt)
    case _ => None
  }

  predicate HasUnnamedShape(values: seq<Val>)
  {
    exists j | 0 <= j < |values| :: values[j].valName.None?
  }

  const KeyOrder: seq<string> := ["Ka", "Kd", "Ks", "Tf", "illum", "d", "Ns"]

  /**
   * `keys[]`, in table order. The order decides which keyword matches first;
   * every entry's declared counts agree with its arrays.
   */
  function KeyTable(): (t: seq<Key>)
    ensures |t| == |KeyOrder|
    ensures forall i | 0 <= i < |t| :: t[i].keyName == KeyOrder[i]
    ensures forall i | 0 <= i < |t| :: t[i].keyType == [KtKa, KtKd, KtKs, KtTf, KtIllum, KtD, KtNs][i]
    ensures forall i | 0 <= i < |t| :: t[i].nrValues == |t[i].values| && t[i].nrOptions == |t[i].options|
  {
    [ Key("Ka", KtKa, 0, [], 3, KVals),
      Key("Kd", KtKd, 0, [], 3, KVals),
      Key("Ks", KtKs, 0, [], 3, KVals),
      Key("Tf", KtTf, 0, [], 3, KVals),
      Key("illum", KtIllum, 0, [], 1, [IntVal]),
      Key("d", KtD, 1, [DOpts], 1, [FloatVal]),
      Key("Ns", KtNs, 0, [], 1, [IntVal]) ]
  }

  /** Key names are pairwise distinct, and none is empty. */
  lemma KeyNamesDistinct()
    ensures forall i, j | 0 <= i < j < |KeyTable()| :: KeyTable()[i].keyName != KeyTable()[j].keyName
    ensures forall i | 0 <= i < |KeyTable()| :: KeyTable()[i].keyName != []
  {
    assert forall i, j | 0 <= i < j < |KeyOrder| ::
      |KeyOrder[i]| != |KeyOrder[j]| || KeyOrder[i][0] != KeyOrder[j][0] || KeyOrder[i][1] != KeyOrder[j][1];
  }

  /** Every entry has an unnamed shape, so shape selection never fails once a keyword matched. */
  lemma EveryKeyHasUnnamedShape(i: nat)
    requires i < |KeyTable()|
    ensures HasUnnamedShape(KeyTable()[i].values)
  {
    var k := KeyTable()[i];
    if i < 4 {
      assert k.values[2].valName.None?;
    } else {
      assert k.values[0].valName.None?;
    }
  }

  /** Every lexable shape of an entry has the type its commit case reads. */
  lemma ShapesFitCommit(i: nat, j: nat)
    requires i < |KeyTable()| && j < |KeyTable()[i].values|
    requires Lexable(KeyTable()[i].values[j].valType)
    ensures StoredType(KeyTable()[i].keyType) == Some(KeyTable()[i].values[j].valType)
  {
  }

  /** The four colour keywords share the shapes of `kVals`. */
  lemma ColorKeyShapes(i: nat)
    requires i < 4
    ensures i < |KeyTable()| && KeyTable()[i].values == KVals
  {
  }

  /** `illum` and `Ns` read a single unnamed int. */
  lemma IntKeyShapes(i: nat)
    requires i == 4 || i == 6
    ensures i < |KeyTable()| && KeyTable()[i].values == [IntVal]
  {
  }

  /** The shapes and options of each entry. */
  lemma KeyShapes()
    ensures forall i | 0 <= i < 4 :: KeyTable()[i].values == KVals && KeyTable()[i].options == []
    ensures KVals[0].valName == Some("xyz") && KVals[0].valType == Vt3Floats
    ensures KVals[1].valName == Some("spectral") && KVals[1].valType == VtStringAndFloat
    ensures KVals[2].valName == None && KVals[2].valType == Vt3Floats
    ensures KeyTable()[4].values == [Val(None, VtInt)] && KeyTable()[4].options == []
    ensures KeyTable()[5].values == [Val(None, VtFloat)] && KeyTable()[5].options == [Opt("-halo", VtFloat)]
    ensures KeyTable()[6].values == [Val(None, VtInt)] && KeyTable()[6].options == []
  {
  }
}
