/**
 * The inventory product as the chatbot sees it, and the sentence that stands
 * for it in the vector store.
 */
module Catalog {
  import opened Wrappers
  import opened JavaText

  /** An inventory product; every field is a boxed Java value and may be null. */
  datatype Product = Product(
    id: Option<int>,
    name: Option<string>,
    description: Option<string>,
    price: Option<real>,
    quantity: Option<int>,
    category: Option<string>)

  /** Rounding half up of a non-negative amount to a whole number. */
  function RoundHalfUp(x: real): (n: nat)
    requires 0.0 <= x
    ensures n as real - 0.5 <= x < n as real + 0.5
  {
    (x + 0.5).Floor
  }

  /** The magnitude of an amount in hundredths, rounded half up. */
  function Cents(x: real): nat {
    RoundHalfUp(if x < 0.0 then -x * 100.0 else x * 100.0)
  }

  /** Two decimal digits, with a leading zero below ten. */
  function TwoDigits(n: nat): (r: string)
    requires n < 100
    ensures |r| == 2 && AllDigits(r)
  {
    [DigitChar(n / 10), DigitChar(n % 10)]
  }

  /**
   * "%.2f": a minus sign for a negative amount, the whole part, a point and
   * exactly two fractional digits, rounded half up.
   */
  function FormatPrice(x: real): (r: string)
    ensures |r| >= 4 && r[|r| - 3] == '.' && AllDigits(r[|r| - 2..])
    ensures (r[0] == '-') <==> x < 0.0
  {
    var c := Cents(x);
    (if x < 0.0 then "-" else "") + NatToString(c / 100) + "." + TwoDigits(c % 100)
  }

  /** A negative amount is shown as a minus sign followed by its magnitude. */
  lemma FormatNegative(x: real)
    requires x < 0.0
    ensures FormatPrice(x) == "-" + FormatPrice(-x)
  {
    assert Cents(x) == Cents(-x);
  }

  /** `u` is a whole part, a point and two digits that together spell `c` hundredths. */
  ghost predicate SpellsCents(u: string, c: nat) {
    |u| >= 4 && AllDigits(u[..|u| - 3]) && AllDigits(u[|u| - 2..])
    && DigitsValue(u[..|u| - 3]) * 100 + DigitsValue(u[|u| - 2..]) == c
  }

  /**
   * After the sign, the whole part and the two fractional digits together
   * spell the magnitude of the amount in cents, rounded half up.
   */
  lemma FormatPriceValue(x: real)
    ensures var r := FormatPrice(x);
      SpellsCents(if x < 0.0 then r[1..] else r, Cents(x))
  {
    if x < 0.0 {
      FormatNegative(x);
      assert FormatPrice(x)[1..] == FormatPrice(-x);
      assert Cents(x) == Cents(-x);
      UnsignedFormatValue(-x);
    } else {
      UnsignedFormatValue(x);
    }
  }

  /** FormatPriceValue for an amount that is not negative, so has no sign. */
  lemma UnsignedFormatValue(x: real)
    requires 0.0 <= x
    ensures SpellsCents(FormatPrice(x), Cents(x))
  {
    var c := Cents(x);
    var w := NatToString(c / 100);
    var f := TwoDigits(c % 100);
    var r := FormatPrice(x);
    assert r == w + "." + f;
    assert r[..|r| - 3] == w;
    assert r[|r| - 2..] == f;
    DigitsOfNat(c / 100);
    assert f[..1] == [DigitChar((c % 100) / 10)];
    assert f[..1][..0] == [];
    assert DigitsValue(f[..1]) == (c % 100) / 10;
    assert DigitsValue(f) == (c % 100) / 10 * 10 + (c % 100) % 10;
  }

  /** A price given in whole cents is shown exactly. */
  lemma FormatWholeCents(c: nat)
    ensures Cents(c as real / 100.0) == c
  {
  }

  /** The rounded amount is within half a cent of the price. */
  lemma CentsWithinHalf(x: real)
    ensures var c := Cents(x) as real;
      (if x < 0.0 then -x else x) * 100.0 - 0.5 < c <= (if x < 0.0 then -x else x) * 100.0 + 0.5
  {
  }

  const NameDefault := "N/A"
  const DescriptionDefault := "Aucune description"
  const CategoryDefault := "Non catégorisé"

  /**
   * Product.toEmbeddingText: name, description, category, price and quantity
   * in that order, each null replaced by its default: the text opens with
   * "Produit: " and the name, and closes with " unités.".
   */
  function EmbeddingText(p: Product): (r: string)
    ensures StartsWith(r, "Produit: ") && StartsWith(r[9..], p.name.GetOr(NameDefault))
    ensures |r| >= 8 && r[|r| - 8..] == " unités."
  {
    var opening, fields, closing := "Produit: ", EmbeddingFields(p), " unités.";
    var name := p.name.GetOr(NameDefault);
    var r := opening + fields + closing;
    FieldsStartWithName(p);
    assert r[..|opening|] == opening;
    assert r[|opening|..][..|name|] == fields[..|name|] == name;
    assert r[|r| - |closing|..] == closing;
    r
  }

  lemma FieldsStartWithName(p: Product)
    ensures StartsWith(EmbeddingFields(p), p.name.GetOr(NameDefault))
  {
    var name := p.name.GetOr(NameDefault);
    var fields := EmbeddingFields(p);
    assert fields == name + fields[|name|..];
  }

  /** The labelled fields between the text's opening and closing words. */
  function EmbeddingFields(p: Product): string {
    p.name.GetOr(NameDefault)
    + ". Description: " + p.description.GetOr(DescriptionDefault)
    + ". Catégorie: " + p.category.GetOr(CategoryDefault)
    + ". Prix: " + FormatPrice(p.price.GetOr(0.0))
    + " €. Stock: " + IntToString(p.quantity.GetOr(0))
  }

  /** A null field reads exactly like its default value. */
  lemma NullsReadAsDefaults(p: Product)
    ensures EmbeddingText(p.(name := None)) == EmbeddingText(p.(name := Some(NameDefault)))
    ensures EmbeddingText(p.(description := None)) == EmbeddingText(p.(description := Some(DescriptionDefault)))
    ensures EmbeddingText(p.(category := None)) == EmbeddingText(p.(category := Some(CategoryDefault)))
    ensures EmbeddingText(p.(price := None)) == EmbeddingText(p.(price := Some(0.0)))
    ensures EmbeddingText(p.(quantity := None)) == EmbeddingText(p.(quantity := Some(0)))
  {
  }

  /** The text does not depend on the product id. */
  lemma EmbeddingTextIgnoresId(p: Product, id: Option<int>)
    ensures EmbeddingText(p.(id := id)) == EmbeddingText(p)
  {
  }
}
