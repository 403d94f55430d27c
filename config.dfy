/**
 * RModelConfig: the registry record of one R model. It wraps the model's ModelConfig and
 * keeps its id, model file and header file as fields; the setters for id and model write
 * the derived properties ("id", "model", "pmml") into the wrapped configuration.
 * Files are represented by their absolute paths.
 */
module Config {

  import opened Outcomes
  import opened Fos
  import Uuid

  // ModelConfig property keys
  const Libraries := "libraries"
  const TrainFunction := "train.function"
  const TrainFile := "train.file"
  const ModelSavePath := "model.save.location"
  const ClassIndex := "classIndex"
  const ModelFile := "model"
  const PmmlFile := "pmml"
  const TrainFunctionArguments := "train.function.arguments"
  const PredictFunctionArguments := "predict.function.arguments"
  const PredictResultTransform := "predict.result.transform"
  const Id := "id"

  const BuiltInTrainFunction := "randomForest"
  const PmmlFileExtension := "pmml"
  const ModelFileExtension := "model"

  /** The PMML file that goes with a model file. */
  function PmmlPath(model: string): string {
    model + "." + PmmlFileExtension
  }

  /** setId on the wrapped configuration: the "id" property holds the id's canonical text. */
  function WithId(cfg: ModelConfig, id: Uuid.Uuid): ModelConfig {
    WithProperty(cfg, Id, Uuid.ToString(id))
  }

  /** setModel on the wrapped configuration: "model" holds the path, "pmml" the path with the PMML extension. */
  function WithModel(cfg: ModelConfig, model: string): ModelConfig {
    WithProperty(WithProperty(cfg, ModelFile, model), PmmlFile, PmmlPath(model))
  }

  /** The derived properties of a configuration agree with the record's id and model file. */
  predicate InStep(cfg: ModelConfig, id: Uuid.Uuid, model: string) {
    Property(cfg, Id) == Some(Uuid.ToString(id)) &&
    Property(cfg, ModelFile) == Some(model) &&
    Property(cfg, PmmlFile) == Some(PmmlPath(model))
  }

  /** Setting the id and then the model file leaves the derived properties in step, and the id readable back. */
  lemma SettersKeepInStep(cfg: ModelConfig, id: Uuid.Uuid, model: string)
    ensures InStep(WithModel(WithId(cfg, id), model), id, model)
    ensures Uuid.Parse(Property(WithModel(WithId(cfg, id), model), Id).value) == Some(id)
    ensures WithModel(WithId(cfg, id), model).attributes == cfg.attributes
  {
    Uuid.ParseToString(id);
  }

  /** Setting the model file again re-derives "model" and "pmml" and keeps the id. */
  lemma ResetModelKeepsInStep(cfg: ModelConfig, id: Uuid.Uuid, old_model: string, model: string)
    requires InStep(cfg, id, old_model)
    ensures InStep(WithModel(cfg, model), id, model)
  {
  }

  /** A merge keeps the record in step unless the newer configuration carries one of the derived keys. */
  lemma MergeKeepsInStep(cfg: ModelConfig, newer: ModelConfig, id: Uuid.Uuid, model: string)
    requires InStep(cfg, id, model)
    requires Id !in newer.properties && ModelFile !in newer.properties && PmmlFile !in newer.properties
    ensures InStep(Merge(cfg, newer), id, model)
  {
  }

  /** A snapshot of a record's fields. */
  datatype Entry = Entry(id: Option<Uuid.Uuid>, model: Option<string>, header: Option<string>, config: ModelConfig)

  class RModelConfig {
    /** The wrapped ModelConfig. */
    var config: ModelConfig
    var id: Option<Uuid.Uuid>
    var model: Option<string>
    var header: Option<string>

    /** A record wraps the configuration; id, model and header start out null. */
    constructor (config: ModelConfig)
      ensures this.config == config && id == None && model == None && header == None
    {
      this.config := config;
      id := None;
      model := None;
      header := None;
    }

    function Snapshot(): Entry
      reads this
    {
      Entry(id, model, header, config)
    }

    /** getHeader: null until a header is set. */
    function GetHeader(): (r: Option<string>)
      reads this
      ensures r == header
    {
      header
    }

    method SetHeader(header: string)
      modifies this`header
      ensures this.header == Some(header)
    {
      this.header := Some(header);
    }

    method SetId(id: Uuid.Uuid)
      modifies this`id, this`config
      ensures this.id == Some(id)
      ensures config == WithId(old(config), id)
    {
      this.id := Some(id);
      config := WithProperty(config, Id, Uuid.ToString(id));
    }

    method SetModel(model: string)
      modifies this`model, this`config
      ensures this.model == Some(model)
      ensures config == WithModel(old(config), model)
    {
      this.model := Some(model);
      config := WithProperty(config, ModelFile, model);
      config := WithProperty(config, PmmlFile, model + "." + PmmlFileExtension);
    }

    /**
     * getPMMLModel: the "pmml" property when it is set; otherwise the model path with the
     * PMML extension, which is also stored into the property. With neither, the model
     * field is dereferenced while null.
     */
    method GetPmmlModel() returns (r: Result<string>)
      modifies this`config
      ensures PmmlFile in old(config.properties) ==> r == Success(old(config.properties)[PmmlFile]) && config == old(config)
      ensures PmmlFile !in old(config.properties) && model.Some? ==>
                r == Success(PmmlPath(model.value)) && config == WithProperty(old(config), PmmlFile, PmmlPath(model.value))
      ensures PmmlFile !in old(config.properties) && model.None? ==>
                r == Failure(NullReference("model")) && config == old(config)
    {
      match Property(config, PmmlFile) {
        case Some(p) => r := Success(p);
        case None =>
          if model.None? {
            return Failure(NullReference("model"));
          }
          var path := model.value + "." + PmmlFileExtension;
          config := WithProperty(config, PmmlFile, path);
          r := Success(path);
      }
    }

    /** update: rejects null; otherwise merges the newer configuration into the wrapped one. */
    method Update(newer: Option<ModelConfig>) returns (r: Result<()>)
      modifies this`config
      ensures newer.None? ==> r == Failure(NullReference("modelConfig")) && config == old(config)
      ensures newer.Some? ==> r == Success(()) && config == Merge(old(config), newer.value)
    {
      if newer.None? {
        return Failure(NullReference("modelConfig"));
      }
      config := Merge(config, newer.value);
      r := Success(());
    }
  }
}
