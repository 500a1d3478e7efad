/** The model registry and the deployment-script generator
    (models/model_configs.py). */
module ModelConfigs {
  import opened Text

  /** The four kinds of model, in declaration order. */
  datatype ModelType = AgentModel | OutputModel | ImageGenModel | VisionModel
  {
    /** The string value of the model type. */
    function Value(): string
    {
      match this
      case AgentModel => "agent"
      case OutputModel => "output"
      case ImageGenModel => "image_gen"
      case VisionModel => "vision"
    }
  }

  /** A model deployment's configuration. Temperature is in hundredths. The
      description, capability list and authentication map are not part of
      this model. */
  datatype ModelDeploymentConfig = ModelDeploymentConfig(
    name: string,
    modelType: ModelType,
    modelId: string,
    modelVersion: string,
    endpointUrl: string,
    apiVersion: string,
    deploymentName: string,
    sku: string,
    capacity: nat,
    maxTokens: nat,
    temperature: nat,
    performanceTier: string)

  const Gpt4oAgentConfig := ModelDeploymentConfig(
    "GPT-4o Agents", AgentModel, "gpt-4o", "2024-11-20",
    "https://your-aoai-resource.openai.azure.com/", "2024-10-21",
    "gpt-4o-agents", "Standard", 100, 4000, 70, "high")

  const Gpt5OutputConfig := ModelDeploymentConfig(
    "GPT-5 Premium Output", OutputModel, "gpt-5", "preview",
    "https://your-gpt5-endpoint.openai.azure.com/", "2024-12-01-preview",
    "gpt-5-premium", "Premium", 50, 8000, 30, "premium")

  const FluxImageConfig := ModelDeploymentConfig(
    "FLUX.1-Kontext-pro", ImageGenModel, "FLUX.1-Kontext-pro", "latest",
    "https://models.inference.ai.azure.com", "2024-04-01-preview",
    "flux-architectural", "Standard", 20, 100, 80, "specialized")

  const AzureVisionConfig := ModelDeploymentConfig(
    "Azure Computer Vision", VisionModel, "computer-vision", "2024-02-01",
    "https://your-cv-resource.cognitiveservices.azure.com/", "2024-02-01",
    "cv-analysis", "S1", 10, 0, 0, "high")

  /** The registry's keys in insertion order. */
  const RegistryOrder: seq<ModelType> := [AgentModel, OutputModel, ImageGenModel, VisionModel]

  /** `get_model_config`: the registry entry of a model type. */
  function GetModelConfig(t: ModelType): (c: ModelDeploymentConfig)
    ensures c.modelType == t
  {
    match t
    case AgentModel => Gpt4oAgentConfig
    case OutputModel => Gpt5OutputConfig
    case ImageGenModel => FluxImageConfig
    case VisionModel => AzureVisionConfig
  }

  /** The configurations of the given types, in order. */
  function ConfigsOf(types: seq<ModelType>): (cs: seq<ModelDeploymentConfig>)
    ensures |cs| == |types|
    ensures forall i :: 0 <= i < |types| ==> cs[i] == GetModelConfig(types[i])
  {
    if |types| == 0 then [] else [GetModelConfig(types[0])] + ConfigsOf(types[1..])
  }

  /** `get_all_models`: the registry's values in insertion order. */
  function GetAllModels(): seq<ModelDeploymentConfig>
  {
    ConfigsOf(RegistryOrder)
  }

  /** Four configurations, one per model type, in declaration order. */
  lemma AllModelsOnePerType()
    ensures var cs := GetAllModels();
      && |cs| == 4
      && (forall i :: 0 <= i < 4 ==> cs[i].modelType == RegistryOrder[i])
      && (forall i, j :: 0 <= i < j < |cs| ==> cs[i].modelType != cs[j].modelType)
  {
  }

  // ---------------------------------------------------------------------
  // The deployment script

  const Header: seq<string> := [
    "#!/bin/bash",
    "# Azure AI Model Deployment Script",
    "# Deploy GPT-4o, GPT-5, FLUX, and Computer Vision",
    "",
    "set -e",
    "",
    "echo '🤖 Starting Azure AI Model Deployments...'",
    ""]

  const Footer: seq<string> := [
    "",
    "echo '✅ All model deployments completed!'",
    "echo '📋 Next: Configure Function App environment variables'"]

  /** The `az` arguments that name the deployment, model and capacity. */
  function AzModelArguments(m: ModelDeploymentConfig): seq<string>
  {
    ["az cognitiveservices account deployment create \\",
     "  --resource-group $AZURE_RESOURCE_GROUP \\",
     "  --account-name $AZURE_OPENAI_ACCOUNT \\",
     "  --deployment-name " + m.deploymentName + " \\",
     "  --model-name " + m.modelId + " \\",
     "  --model-version " + m.modelVersion + " \\",
     "  --model-format OpenAI \\",
     "  --sku-capacity " + NatToString(m.capacity) + " \\",
     "  --sku-name " + m.sku]
  }

  /** `_generate_openai_deployment`. */
  function OpenAIDeployment(m: ModelDeploymentConfig): (lines: seq<string>)
    ensures |lines| == 12 && lines[11] == ""
  {
    ["# Deploy " + m.name, "echo '📦 Deploying " + m.name + "...'"] + AzModelArguments(m) + [""]
  }

  /** `_generate_gpt5_deployment`. */
  function Gpt5Deployment(m: ModelDeploymentConfig): (lines: seq<string>)
    ensures |lines| == 13 && lines[12] == ""
  {
    ["# Deploy " + m.name + " (Preview)",
     "echo '🚀 Deploying " + m.name + "...'",
     "# Note: GPT-5 deployment requires preview access"]
    + AzModelArguments(m) + [""]
  }

  /** `_generate_flux_deployment`. */
  function FluxDeployment(m: ModelDeploymentConfig): (lines: seq<string>)
    ensures |lines| == 9 && lines[8] == ""
  {
    ["# Configure " + m.name,
     "echo '🎨 Configuring " + m.name + "...'",
     "# FLUX uses GitHub Models endpoint - no deployment needed",
     "# Store API key in Key Vault",
     "az keyvault secret set \\",
     "  --vault-name $KEY_VAULT_NAME \\",
     "  --name flux-api-key \\",
     "  --value $FLUX_API_KEY",
     ""]
  }

  /** `_generate_vision_deployment`. */
  function VisionDeployment(m: ModelDeploymentConfig): (lines: seq<string>)
    ensures |lines| == 3 && lines[2] == ""
  {
    ["# " + m.name + " already deployed via Bicep",
     "echo '👁️ Computer Vision service ready'",
     ""]
  }

  /** The block a configuration contributes, chosen by its model type. */
  function DeploymentBlock(m: ModelDeploymentConfig): seq<string>
  {
    match m.modelType
    case AgentModel => OpenAIDeployment(m)
    case OutputModel => Gpt5Deployment(m)
    case ImageGenModel => FluxDeployment(m)
    case VisionModel => VisionDeployment(m)
  }

  /** The blocks of the given configurations, one after another. */
  function Blocks(models: seq<ModelDeploymentConfig>): seq<string>
  {
    if |models| == 0 then [] else Blocks(models[..|models| - 1]) + DeploymentBlock(models[|models| - 1])
  }

  lemma AppendAssoc(a: seq<string>, b: seq<string>, c: seq<string>)
    ensures a + b + c == a + (b + c)
  {
  }

  lemma BlocksSnoc(models: seq<ModelDeploymentConfig>, i: nat)
    requires i < |models|
    ensures Blocks(models[..i + 1]) == Blocks(models[..i]) + DeploymentBlock(models[i])
  {
    assert models[..i + 1][..i] == models[..i];
  }

  /** The script's lines: header, one block per registered model, footer. */
  function ScriptLines(): seq<string>
  {
    Header + Blocks(GetAllModels()) + Footer
  }

  /** `get_deployment_script`: extends the header with each registered
      model's block, appends the footer, and joins the lines with newlines. */
  method GetDeploymentScript() returns (script: string)
    ensures script == Join(ScriptLines(), '\n')
  {
    var models := GetAllModels();
    var lines := Header;
    for i := 0 to |models|
      invariant lines == Header + Blocks(models[..i])
    {
      var block := DeploymentBlock(models[i]);
      BlocksSnoc(models, i);
      AppendAssoc(Header, Blocks(models[..i]), block);
      lines := lines + block;
    }
    assert models[..|models|] == models;
    lines := lines + Footer;
    script := Join(lines, '\n');
  }

  /** The script's lines open with the shebang and the fixed header and
      close with the fixed footer; the script text itself starts with the
      shebang line. */
  lemma ScriptFraming()
    ensures var lines := ScriptLines();
      && |lines| >= |Header| + |Footer|
      && lines[0] == "#!/bin/bash"
      && lines[..|Header|] == Header
      && lines[|lines| - |Footer|..] == Footer
      && Join(lines, '\n')[..12] == "#!/bin/bash\n"
  {
    var lines := ScriptLines();
    Framed(Blocks(GetAllModels()));
    JoinStartsWithFirst(lines, '\n');
  }

  lemma Framed(middle: seq<string>)
    ensures var lines := Header + middle + Footer;
      && |lines| >= |Header| + |Footer|
      && lines[0] == "#!/bin/bash"
      && lines[..|Header|] == Header
      && lines[|lines| - |Footer|..] == Footer
  {
    var lines := Header + middle + Footer;
    assert lines[..|Header|] == Header;
    assert lines[|lines| - |Footer|..] == Footer;
  }

  /** The GPT-4o and GPT-5 blocks name the configuration's deployment,
      model, version, capacity and SKU in their `az` command. */
  lemma AzBlockCarriesConfig(m: ModelDeploymentConfig)
    requires m.modelType == AgentModel || m.modelType == OutputModel
    ensures var block := DeploymentBlock(m);
      && ("  --deployment-name " + m.deploymentName + " \\") in block
      && ("  --model-name " + m.modelId + " \\") in block
      && ("  --model-version " + m.modelVersion + " \\") in block
      && ("  --sku-capacity " + NatToString(m.capacity) + " \\") in block
      && ("  --sku-name " + m.sku) in block
  {
    var args := AzModelArguments(m);
    var block := DeploymentBlock(m);
    var offset := if m.modelType == AgentModel then 2 else 3;
    assert block[offset..offset + |args|] == args;
    assert block[offset + 3] == args[3];
    assert block[offset + 4] == args[4];
    assert block[offset + 5] == args[5];
    assert block[offset + 7] == args[7];
    assert block[offset + 8] == args[8];
  }

  /** The vision block runs no `az` command. */
  lemma VisionBlockRunsNoAz(m: ModelDeploymentConfig)
    requires m.modelType == VisionModel
    ensures forall line :: line in DeploymentBlock(m) ==> !(|line| >= 3 && line[..3] == "az ")
  {
    var block := VisionDeployment(m);
    assert block[0][0] == '#' && block[1][0] == 'e' && block[2] == "";
    forall line | line in block ensures |line| == 0 || line[0] != 'a' {
      assert line == block[0] || line == block[1] || line == block[2];
    }
  }

  /** The FLUX block stores the `flux-api-key` secret. */
  lemma FluxBlockStoresKey(m: ModelDeploymentConfig)
    requires m.modelType == ImageGenModel
    ensures "  --name flux-api-key \\" in DeploymentBlock(m)
  {
    assert FluxDeployment(m)[6] == "  --name flux-api-key \\";
  }
}
