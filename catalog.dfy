/**
 * The configuration constants of the generator class: products, equipment,
 * staff identifiers, clean rooms, suppliers, complaint categories, markets,
 * CAPA sources and root-cause categories.
 */
module Catalog {
  import opened Text

  datatype Product = Product(name: String, code: String, batchPrefix: String)

  const Products: seq<Product> := [
    Product("Paracetamol 500mg Tablets", "PARA-500-TAB", "PARA"),
    Product("Ibuprofen 400mg Tablets", "IBU-400-TAB", "IBU"),
    Product("Aspirin 100mg Tablets", "ASP-100-TAB", "ASP")
  ]

  const TabletPresses: seq<String> := ["Press-A", "Press-B", "Press-C", "Press-D"]
  const Granulators: seq<String> := ["Gran-01", "Gran-02", "Gran-03"]
  const Dryers: seq<String> := ["FBD-01", "FBD-02", "FBD-03"]
  const Blenders: seq<String> := ["Blend-01", "Blend-02", "Blend-03"]

  /** `f"{tag}-{i:0wd}"`. */
  function NumberedId(tag: String, i: nat, w: nat): String
  {
    tag + "-" + ZeroPad(i, w)
  }

  /** `[f"{tag}-{i:0wd}" for i in range(1, n + 1)]`. */
  function NumberedIds(tag: String, n: nat, w: nat): (ids: seq<String>)
    ensures |ids| == n
    ensures forall i :: 0 <= i < n ==> ids[i] == NumberedId(tag, i + 1, w)
  {
    seq(n, i requires 0 <= i < n => NumberedId(tag, i + 1, w))
  }

  /** Numbered identifier lists never repeat an element. */
  lemma NumberedIdsDistinct(tag: String, n: nat, w: nat)
    ensures forall i, j :: 0 <= i < j < n ==> NumberedIds(tag, n, w)[i] != NumberedIds(tag, n, w)[j]
  {
    NumberedIdsNumbered(tag, n, w);
  }

  /** Element `i` of a numbered identifier list carries the number `i + 1`. */
  lemma NumberedIdsNumbered(tag: String, n: nat, w: nat)
    ensures forall i :: 0 <= i < n ==> IdNumber(NumberedIds(tag, n, w)[i]) == i + 1
  {
    forall i | 0 <= i < n
      ensures IdNumber(NumberedIds(tag, n, w)[i]) == i + 1
    {
      var id := NumberedIds(tag, n, w)[i];
      assert id == NumberedId(tag, i + 1, w);
      IdNumberOf(tag, i + 1, w);
    }
  }

  /** The number an identifier `tag-NNN` carries after its last '-' (0 when that is not all digits). */
  function IdNumber(id: String): nat
  {
    var f := LastField(id);
    if AllDigits(f) then DigitsValue(f) else 0
  }

  lemma IdNumberOf(tag: String, i: nat, w: nat)
    ensures IdNumber(NumberedId(tag, i, w)) == i
  {
    PaddedIdNumber(tag, i, w);
  }

  /** 50 operators OP-001 … OP-050. */
  const Operators: seq<String> := NumberedIds("OP", 50, 3)
  /** 30 analysts QC-001 … QC-030. */
  const QcAnalysts: seq<String> := NumberedIds("QC", 30, 3)
  /** 9 qualified persons QP-01 … QP-09. */
  const QpList: seq<String> := NumberedIds("QP", 9, 2)

  const HplcSystems: seq<String> := ["HPLC-01", "HPLC-02", "HPLC-03", "HPLC-04"]
  const DissolutionApparatus: seq<String> := ["Diss-01", "Diss-02", "Diss-03"]

  datatype Cleanroom = Cleanroom(code: String, name: String, classification: String)

  const Cleanrooms: seq<Cleanroom> := [
    Cleanroom("CR-001", "Dispensing Area", "ISO 8"),
    Cleanroom("CR-002", "Granulation Suite", "ISO 8"),
    Cleanroom("CR-003", "Compression Room A", "ISO 7"),
    Cleanroom("CR-004", "Compression Room B", "ISO 7"),
    Cleanroom("CR-005", "Packaging Hall", "ISO 8"),
    Cleanroom("CR-006", "QC Laboratory", "ISO 7")
  ]

  datatype Supplier = Supplier(id: String, name: String, materials: seq<String>)

  const Suppliers: seq<Supplier> := [
    Supplier("SUP-001", "ChemPharma Inc.", ["Paracetamol API", "Ibuprofen API"]),
    Supplier("SUP-002", "ExcipientCorp", ["MCC", "Lactose", "Starch"]),
    Supplier("SUP-003", "BinderSolutions", ["PVP K30", "HPMC"]),
    Supplier("SUP-004", "CoatingMasters", ["Opadry", "Titanium Dioxide"]),
    Supplier("SUP-005", "PackagingPro", ["HDPE Bottles", "Blister Foil"]),
    Supplier("SUP-006", "GlobalAPI Ltd.", ["Aspirin API"])
  ]

  /** The complaint categories in dictionary order, each with its descriptions. */
  const ComplaintCategories: seq<(String, seq<String>)> := [
    ("Product Quality", ["Broken tablets", "Discolored tablets", "Chipped tablets",
                         "Foreign particle", "Odor complaint", "Wrong count", "Packaging damage"]),
    ("Efficacy", ["Not effective", "Delayed onset", "Short duration"]),
    ("Adverse Event", ["Allergic reaction", "GI upset", "Headache", "Skin rash", "Nausea"]),
    ("Labeling", ["Missing expiry", "Illegible lot", "Wrong instructions"])
  ]

  const Markets: seq<String> := ["USA", "Canada", "UK", "Germany", "France", "Australia",
                                 "Japan", "Brazil", "India", "Mexico", "Spain", "Italy"]

  const CapaSources: seq<String> := ["Deviation", "Customer Complaint", "OOS Investigation",
                                     "Internal Audit", "External Audit", "Management Review",
                                     "Trend Analysis", "Self-Identified"]

  const RootCauseCategories: seq<String> := [
    "Procedure not followed", "Procedure inadequate", "Training deficiency",
    "Equipment malfunction", "Environmental factor", "Raw material variation",
    "Human error", "Communication failure", "Design flaw", "Supplier issue"
  ]

  /** `[x for x in xs if x != y]`. */
  function Without(xs: seq<String>, y: String): (r: seq<String>)
    ensures y !in r
    ensures forall x :: x in r <==> x in xs && x != y
  {
    if xs == [] then [] else (if xs[0] == y then [] else [xs[0]]) + Without(xs[1..], y)
  }

  /** Dropping one element from a list with two different elements leaves something. */
  lemma WithoutNonEmpty(xs: seq<String>, y: String)
    requires |xs| >= 2 && xs[0] != xs[1]
    ensures |Without(xs, y)| > 0
  {
    if xs[0] == y {
      assert xs[1] in Without(xs, y);
    } else {
      assert xs[0] in Without(xs, y);
    }
  }

  lemma OperatorsDistinctHead()
    ensures |Operators| == 50 && Operators[0] != Operators[1]
    ensures |QcAnalysts| == 30 && QcAnalysts[0] != QcAnalysts[1]
  {
    NumberedIdsDistinct("OP", 50, 3);
    NumberedIdsDistinct("QC", 30, 3);
  }
}
