/** The constant tables of data/locations.ts: cities with their
    neighbourhoods, service types and report statuses. */
module Locations {
  import opened Wrappers
  import Seqs

  datatype City = City(id: string, name: string, neighborhoods: seq<string>)

  /** Display entry for a service type or a status. */
  datatype Label = Label(id: string, name: string, color: string)

  const CongoCities: seq<City> := [
    City("brazzaville", "Brazzaville",
      ["Centre-ville", "Poto-Poto", "Bacongo", "Makélékélé", "Moungali", "Ouenzé", "Talangaï", "Mfilou", "Djiri"]),
    City("pointe-noire", "Pointe-Noire",
      ["Centre-ville", "Tié-Tié", "Lumumba", "Vindoulou", "Mongo-Mpoukou", "Mpita", "Ngoyo", "Tchimbamba"]),
    City("dolisie", "Dolisie", ["Centre-ville", "Ngot", "Moukoukoulou", "Bissenga"]),
    City("nkayi", "Nkayi", ["Centre-ville", "Mouyondzi", "Loudima"]),
    City("owando", "Owando", ["Centre-ville", "Makoua", "Boundji"])
  ]

  const ServiceTypes: seq<Label> := [
    Label("electricity", "Électricité", "#F59E0B"),
    Label("water", "Eau", "#3B82F6"),
    Label("internet", "Internet", "#8B5CF6")
  ]

  const OutageStatuses: seq<Label> := [
    Label("outage", "Coupure", "#EF4444"),
    Label("restored", "Rétabli", "#10B981")
  ]

  /** `CONGO_CITIES.find(city => city.id === id)`. */
  function FindCity(id: string): (r: Option<City>)
    ensures r.Some? <==> exists i :: 0 <= i < |CongoCities| && CongoCities[i].id == id
    ensures r.Some? ==> r.value in CongoCities && r.value.id == id
  {
    Seqs.Find(CongoCities, (c: City) => c.id == id)
  }

  /** `table.find(s => s.id === id)` over a label table. */
  function FindLabel(table: seq<Label>, id: string): (r: Option<Label>)
    ensures r.Some? <==> exists i :: 0 <= i < |table| && table[i].id == id
    ensures r.Some? ==> r.value in table && r.value.id == id
  {
    Seqs.Find(table, (l: Label) => l.id == id)
  }
}
