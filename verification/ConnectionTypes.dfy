/** The connection types both the legacy layer and the SQL connector speak of. */
module ConnectionTypes {

  datatype ConnectionType = Postgres | MySql | ClickHouse | MongoDb | MsSql | Oracle | Kafka | S3 | Ftp | Sftp | Custom

  /** The mode a connector or a bridge works in. */
  datatype Mode = Sync | Async

  predicate Sql(t: ConnectionType) {
    t.Postgres? || t.MySql? || t.ClickHouse? || t.MongoDb? || t.MsSql? || t.Oracle?
  }

  /** The name a type is registered and stored under. */
  function TypeValue(t: ConnectionType): string {
    match t
    case Postgres => "postgres"
    case MySql => "mysql"
    case ClickHouse => "clickhouse"
    case MongoDb => "mongodb"
    case MsSql => "mssql"
    case Oracle => "oracle"
    case Kafka => "kafka"
    case S3 => "s3"
    case Ftp => "ftp"
    case Sftp => "sftp"
    case Custom => "custom"
  }

  lemma TypeValuesDiffer(t: ConnectionType, u: ConnectionType)
    ensures TypeValue(t) == TypeValue(u) <==> t == u
  {
    var a, b := TypeValue(t), TypeValue(u);
    if t != u && |a| == |b| {
      assert a[0] != b[0] || a[1] != b[1];
    }
  }
}
