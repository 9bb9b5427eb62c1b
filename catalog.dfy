/** The catalogue records the dashboards read: products, delivery cities and orders. */
module Catalog {

  /** A product as listed; `status` is free text, normally approved, pending or rejected. */
  datatype Product = Product(id: string, sellerId: string, name: string, status: string, price: int)

  datatype DeliveryCity = DeliveryCity(id: string, name: string, isActive: bool)

  /** One line of an order: the product's id and name and the quantity bought. */
  datatype OrderItem = OrderItem(productId: string, productName: string, quantity: int)

  datatype Order = Order(id: string, createdAt: string, status: string, items: seq<OrderItem>)
}
