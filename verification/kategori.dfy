/** The rainfall category classifier `kategori_hujan` (app.py): a rainfall
    amount in millimetres is bucketed as Rendah (low), Sedang (medium) or
    Tinggi (high), with cut points at 5 and 20. Rainfall is a `real`: the
    classifier only compares, so exact reals lose nothing. */
module Kategori {

  const Rendah: string := "Rendah"
  const Sedang: string := "Sedang"
  const Tinggi: string := "Tinggi"

  /** The three labels in display order, low to high. */
  const Order: seq<string> := [Rendah, Sedang, Tinggi]

  /** The labels are three different strings. */
  lemma OrderDistinct()
    ensures Rendah != Sedang && Sedang != Tinggi && Rendah != Tinggi
  {
  }

  /** `kategori_hujan`: total over all reals, negative rainfall included. */
  function KategoriHujan(nilai: real): (k: string)
    ensures k in Order
    ensures k == Rendah <==> nilai < 5.0
    ensures k == Sedang <==> 5.0 <= nilai < 20.0
    ensures k == Tinggi <==> 20.0 <= nilai
  {
    OrderDistinct();
    if nilai < 5.0 then Rendah
    else if nilai < 20.0 then Sedang
    else Tinggi
  }

  /** Position of a label in the ordinal scale Rendah < Sedang < Tinggi. */
  function Rank(k: string): (r: nat)
    requires k in Order
    ensures r < |Order| && Order[r] == k
  {
    if k == Rendah then 0 else if k == Sedang then 1 else 2
  }

  /** More rain never gives a lower category. */
  lemma KategoriMonotone(a: real, b: real)
    requires a <= b
    ensures Rank(KategoriHujan(a)) <= Rank(KategoriHujan(b))
  {
  }

  /** The cut points belong to the upper bucket. */
  lemma KategoriBoundaries()
    ensures KategoriHujan(4.999) == Rendah
    ensures KategoriHujan(5.0) == Sedang
    ensures KategoriHujan(19.999) == Sedang
    ensures KategoriHujan(20.0) == Tinggi
  {
  }
}
