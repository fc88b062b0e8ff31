/** The configuration of the key-value table the integration state lives in.
    The store's and the secret store's operations themselves are not modelled:
    their outcomes are inputs of the integration's methods. */
module RunSimAws {

  /** A table handle: region, partition-key attribute name and table name. */
  datatype DdbTable = DdbTable(Region: string, PrimaryKey: string, TableName: string)
}
