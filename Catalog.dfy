/**
 * The product records the cart reads, the catalog's five bottles, and the
 * parsing of their price tags ("S$150") into whole Singapore dollars.
 * Descriptions, tasting notes and the other display-only attributes are not
 * read by the cart and are not modelled.
 */
module Catalog {
  import opened Text

  datatype Product = Product(id: string, name: string, nameZh: string, image: string, price: string)

  const PricePrefix: string := "S$"

  /** A price tag as the catalog writes them: "S$" followed by one or more decimal digits. */
  predicate WellFormedPrice(tag: string) {
    |tag| > |PricePrefix| && tag[..|PricePrefix|] == PricePrefix && AllDigits(tag[|PricePrefix|..])
  }

  /** `parseFloat(tag.replace('S$', ''))` on a well-formed tag: the decimal value of its digits. */
  function ParsePrice(tag: string): nat
    requires WellFormedPrice(tag)
  {
    DigitsValue(tag[|PricePrefix|..])
  }

  /** The tag the catalog would write for a whole-dollar price. */
  function PriceTag(dollars: nat): string {
    PricePrefix + NatToString(dollars)
  }

  /** A well-formed tag without leading zeros is the tag of the price it parses to. */
  lemma TagOfParsePrice(tag: string)
    requires WellFormedPrice(tag)
    ensures Canonical(tag[|PricePrefix|..]) ==> PriceTag(ParsePrice(tag)) == tag
  {
    var digits := tag[|PricePrefix|..];
    if Canonical(digits) {
      NatToStringOfDigits(digits);
      assert tag == tag[..|PricePrefix|] + digits;
    }
  }

  /** Every whole-dollar price survives a trip through its tag. */
  lemma ParsePriceTag(dollars: nat)
    ensures WellFormedPrice(PriceTag(dollars))
    ensures ParsePrice(PriceTag(dollars)) == dollars
  {
    assert PriceTag(dollars)[|PricePrefix|..] == NatToString(dollars);
    DigitsOfNatToString(dollars);
  }

  const Anejo := Product("anejo", "TEQUILA AÑEJO", "陈酿龙舌兰酒",
    "https://ext.same-assets.com/297100652/2889512519.jpeg", "S$150")
  const ExtraAnejo := Product("extra-anejo", "TEQUILA EXTRA AÑEJO", "特级陈酿龙舌兰酒",
    "https://ext.same-assets.com/297100652/3348755416.jpeg", "S$215")
  const Cristalino := Product("cristalino", "TEQUILA AÑEJO CRISTALINO", "陈酿水晶龙舌兰酒",
    "https://ext.same-assets.com/297100652/3761294050.jpeg", "S$645")
  const BlackEdition := Product("black-edition", "BLACK EDITION", "黑标限定版",
    "https://ext.same-assets.com/297100652/802937699.jpeg", "S$1840")
  const MiniCollection := Product("mini-collection", "MINI BOTTLE COLLECTION", "迷你酒瓶套装",
    "https://ext.same-assets.com/297100652/3519823886.jpeg", "S$210")

  const Products: seq<Product> := [Anejo, ExtraAnejo, Cristalino, BlackEdition, MiniCollection]

  lemma {:induction false} TagReads(p: Product, dollars: nat)
    requires p.price == PriceTag(dollars)
    ensures WellFormedPrice(p.price) && ParsePrice(p.price) == dollars
  {
    ParsePriceTag(dollars);
  }

  lemma AnejoPrice()
    ensures WellFormedPrice(Anejo.price) && ParsePrice(Anejo.price) == 150
  {
    assert NatToString(15) == "15";
    assert PriceTag(150) == Anejo.price;
    TagReads(Anejo, 150);
  }

  lemma ExtraAnejoPrice()
    ensures WellFormedPrice(ExtraAnejo.price) && ParsePrice(ExtraAnejo.price) == 215
  {
    assert NatToString(21) == "21";
    assert PriceTag(215) == ExtraAnejo.price;
    TagReads(ExtraAnejo, 215);
  }

  lemma CristalinoPrice()
    ensures WellFormedPrice(Cristalino.price) && ParsePrice(Cristalino.price) == 645
  {
    assert NatToString(64) == "64";
    assert PriceTag(645) == Cristalino.price;
    TagReads(Cristalino, 645);
  }

  lemma BlackEditionPrice()
    ensures WellFormedPrice(BlackEdition.price) && ParsePrice(BlackEdition.price) == 1840
  {
    assert NatToString(18) == "18"; assert NatToString(184) == "184";
    assert PriceTag(1840) == BlackEdition.price;
    TagReads(BlackEdition, 1840);
  }

  lemma MiniCollectionPrice()
    ensures WellFormedPrice(MiniCollection.price) && ParsePrice(MiniCollection.price) == 210
  {
    assert NatToString(21) == "21";
    assert PriceTag(210) == MiniCollection.price;
    TagReads(MiniCollection, 210);
  }

  /** Every catalog tag is well formed, so every product can go into the cart. */
  lemma CatalogPricesWellFormed()
    ensures forall i :: 0 <= i < |Products| ==> WellFormedPrice(Products[i].price)
  {
    forall i | 0 <= i < |Products|
      ensures WellFormedPrice(Products[i].price)
    {
      if i == 0 {
        AnejoPrice();
      } else if i == 1 {
        ExtraAnejoPrice();
      } else if i == 2 {
        CristalinoPrice();
      } else if i == 3 {
        BlackEditionPrice();
      } else {
        MiniCollectionPrice();
      }
    }
  }

  /** Product ids are distinct, so each product gets its own cart line. */
  lemma CatalogIdsDistinct()
    ensures forall i, j :: 0 <= i < j < |Products| ==> Products[i].id != Products[j].id
  {
  }
}
