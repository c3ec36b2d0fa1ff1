/**
 * The fixture data the dashboard ships with: eight stock items, the basket
 * models "Cesta Premium" and "Cesta Gold", and the four seed transactions.
 * Unit prices are in cents.
 */
module DummyData {
  import opened Common
  import opened Types

  const Arroz := Item("1", "Arroz", 50, 20, "kg", 550, "2023-04-15", None)
  const Feijao := Item("2", "Feijão", 30, 15, "kg", 725, "2023-04-20", None)
  const Acucar := Item("3", "Açúcar", 25, 10, "kg", 475, "2023-04-10", None)
  const Cafe := Item("4", "Café", 8, 10, "kg", 2500, "2023-03-30", None)
  const Oleo := Item("5", "Óleo", 40, 20, "un", 990, "2023-04-18", None)
  const Sal := Item("6", "Sal", 30, 15, "kg", 350, "2023-03-25", None)
  const Macarrao := Item("7", "Macarrão", 45, 25, "un", 420, "2023-04-12", None)
  const Farinha := Item("8", "Farinha de Trigo", 35, 20, "kg", 680, "2023-04-05", None)

  const Items: seq<Item> := [Arroz, Feijao, Acucar, Cafe, Oleo, Sal, Macarrao, Farinha]

  const CestaPremium := BasketModel("1", "Cesta Premium", [
    BasketItem("1", 5), BasketItem("2", 3), BasketItem("3", 4), BasketItem("4", 2),
    BasketItem("5", 3), BasketItem("6", 1), BasketItem("7", 4), BasketItem("8", 2)])

  const CestaGold := BasketModel("2", "Cesta Gold", [
    BasketItem("1", 4), BasketItem("2", 2), BasketItem("3", 3), BasketItem("4", 1),
    BasketItem("5", 2), BasketItem("6", 1), BasketItem("7", 3), BasketItem("8", 2)])

  const Transactions: seq<FinancialTransaction> := [
    FinancialTransaction("1", "2023-04-15", "1", 100, 55000, Some("Compra mensal de arroz")),
    FinancialTransaction("2", "2023-04-20", "2", 50, 36250, Some("Compra mensal de feijão")),
    FinancialTransaction("3", "2023-04-10", "3", 40, 19000, Some("Compra mensal de açúcar")),
    FinancialTransaction("4", "2023-03-30", "4", 20, 50000, Some("Compra mensal de café"))]
}
