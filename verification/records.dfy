/** The records the pipeline reads and produces. */
module Records {
  import opened Numbers

  /** One observed node (an entry of node_countries.json). */
  datatype NodeRecord = NodeRecord(countryCode: string, count: nat)

  /** One country of country_data.json: ISO alpha-3 code, name, GDP in billions USD, population, land area in km². */
  datatype CountryStat = CountryStat(
    countryCode: string,
    countryName: string,
    gdp: real,
    population: nat,
    landArea: real)

  /** A country record with every original field (`stat`) plus its summed node count. */
  datatype Enriched = Enriched(stat: CountryStat, nodes: nat)

  /** A joined record with the metric value attached (`{ ...c, value }`). */
  datatype Point = Point(row: Enriched, value: Num)
}
