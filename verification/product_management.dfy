/** The stock label of the farmer's product list. */
module ProductManagement {
  import InventoryManagement

  /** The `{ color, label }` pair (the label is `name` here) `getStockStatus` returns. */
  datatype StockStatus = StockStatus(color: string, name: string)

  /** `getStockStatus(stock)`: none left is "Out of Stock", at most 5 is
      "Low Stock" (5 itself included), anything more is "In Stock". */
  function GetStockStatus(stock: int): (r: StockStatus)
    ensures stock == 0 ==> r.name == "Out of Stock"
    ensures 1 <= stock <= 5 ==> r.name == "Low Stock"
    ensures stock > 5 ==> r.name == "In Stock"
  {
    if stock == 0 then StockStatus("bg-red-100 text-red-800", "Out of Stock")
    else if stock <= 5 then StockStatus("bg-yellow-100 text-yellow-800", "Low Stock")
    else StockStatus("bg-green-100 text-green-800", "In Stock")
  }

  /** Exactly one of the three labels applies to any stock (a negative one reads
      as "Low Stock"), and each label comes with its own colour. */
  lemma ExactlyOneLabel(stock: int)
    ensures stock < 0 ==> GetStockStatus(stock).name == "Low Stock"
    ensures var out, low, inStock := GetStockStatus(stock).name == "Out of Stock",
                                     GetStockStatus(stock).name == "Low Stock",
                                     GetStockStatus(stock).name == "In Stock";
            (out && !low && !inStock) || (!out && low && !inStock) || (!out && !low && inStock)
    ensures GetStockStatus(stock).name == "Out of Stock" <==> GetStockStatus(stock).color == "bg-red-100 text-red-800"
    ensures GetStockStatus(stock).name == "Low Stock" <==> GetStockStatus(stock).color == "bg-yellow-100 text-yellow-800"
  {
  }

  /** The farmer's product list and the inventory page band stock the same way. */
  lemma SameBandsAsInventory(stock: int)
    ensures GetStockStatus(stock).name == "Out of Stock" <==> InventoryManagement.BadgeOf(stock).OutOfStockBadge?
    ensures GetStockStatus(stock).name == "Low Stock" <==> InventoryManagement.BadgeOf(stock).LowStockBadge?
    ensures GetStockStatus(stock).name == "In Stock" <==> InventoryManagement.BadgeOf(stock).InStockBadge?
  {
  }
}
