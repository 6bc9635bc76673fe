/** The request/response model of the service: the asset to create and its application metadata. */
module Domain {
  import opened Wrappers

  /** The application metadata carried in the note field of the creation transaction.
      The domain class itself is not part of this model; its content is kept as a map of properties. */
  datatype Metadata = Metadata(properties: map<string, string>)

  /** The fields of an AssetModel that the service reads (everything but the transaction id). */
  datatype AssetFields = AssetFields(
    total: int,
    decimals: int,
    unitName: string,
    assetName: string,
    url: string,
    defaultFrozen: bool,
    metadata: Metadata)

  /** The asset creation request, which createAsset returns with its transaction id filled in. */
  class AssetModel {
    var assetTotal: int
    var assetDecimals: int
    var unitName: string
    var assetName: string
    var url: string
    var defaultFrozen: bool
    var metadata: Metadata
    /** The id of the transaction that created the asset; None (null) until one is confirmed. */
    var txId: Option<string>

    function Fields(): AssetFields
      reads this
    {
      AssetFields(assetTotal, assetDecimals, unitName, assetName, url, defaultFrozen, metadata)
    }
  }
}
